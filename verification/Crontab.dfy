// internal/scan/crontab.go: reading a crontab, rewriting one line of it, and
// recognising a line goguma has already wrapped.
module Crontab {
  import opened Prelude
  import opened Text
  import Numerals
  import Slugs

  datatype Entry = Entry(
    name: string,
    schedule: string,
    command: string,
    line: nat,
    timeSensitive: bool,
    selfHealing: bool)

  // ----- one line -----

  predicate CronRune(c: char) {
    Numerals.Digit(c) || c == '*' || c == '/' || c == ',' || c == '-'
  }

  predicate AllCron(tok: string) {
    tok == "" || (CronRune(tok[0]) && AllCron(tok[1..]))
  }

  predicate LooksLikeCronField(tok: string) {
    tok != "" && AllCron(tok)
  }

  /** Whether a command's first word could be read as a sixth schedule field. */
  predicate StartsLikeCron(command: string) {
    Fields(command) != [] && LooksLikeCronField(Fields(command)[0])
  }

  /** What is left of a line after its first word. */
  function AfterWord(s: string): (r: string)
    ensures |r| <= |s|
  {
    var t := TrimLeft(s, IsSpace);
    t[WordLength(t)..]
  }

  /** What is left of a line after its first n words. */
  function DropWords(s: string, n: nat): (r: string)
    ensures |r| <= |s|
    decreases n
  {
    if n == 0 then s else DropWords(AfterWord(s), n - 1)
  }

  /** How many words the schedule takes: a descriptor or five fields. */
  function ScheduleWords(line: string): nat {
    if line != "" && line[0] == '@' then 1 else 5
  }

  /** The schedule and the command of a trimmed line, if it has both. */
  function SplitLine(line: string): Option<(string, string)> {
    var fields, k := Fields(line), ScheduleWords(line);
    if |fields| <= k || (k == 5 && LooksLikeCronField(fields[5])) then None
    else Some((Join(fields[..k], " "), TrimSpace(DropWords(line, k))))
  }

  predicate Blank(c: char) { c == ' ' || c == '\t' }

  predicate Equals(c: char) { c == '=' }

  /** NAME=value: an '=' after at least one rune and before any blank. */
  predicate IsAssignment(line: string) {
    var eq := IndexOf(line, Equals);
    0 < eq < |line| && IndexOf(line[..eq], Blank) == eq
  }

  function ParseLine(raw: string): Option<(string, string)> {
    var line := TrimSpace(raw);
    if line == "" || line[0] == '#' || IsAssignment(line) then None else SplitLine(line)
  }

  function MakeEntry(schedule: string, command: string, line: nat): Entry {
    Entry(NameFromCommand(command), schedule, command, line,
      !HasPrefix(schedule, "@") || schedule == "@daily" || schedule == "@midnight",
      HasPrefix(schedule, "@reboot"))
  }

  /** The entry on line n, if there is one. */
  function LineEntries(raw: string, n: nat): seq<Entry> {
    match ParseLine(raw)
    case None => []
    case Some((sched, cmd)) => [MakeEntry(sched, cmd, n)]
  }

  /** The entries of the given lines, numbered from one. */
  function Entries(lines: seq<string>): seq<Entry> {
    if lines == [] then []
    else Entries(lines[..|lines| - 1]) + LineEntries(lines[|lines| - 1], |lines|)
  }

  // ----- the source's loops -----

  method SplitCrontabLine(line: string) returns (r: Option<(string, string)>)
    requires Trimmed(line, IsSpace)
    ensures r == SplitLine(line)
  {
    hide Entries, Fields, DropWords, Join, LooksLikeCronField, TrimSpace, IndexSub;
    if HasPrefix(line, "@") {
      var fields := Fields(line);
      if |fields| < 2 { return None; }
      DropFirst(line);
      return Some((fields[0], TrimSpace(line[|fields[0]|..])));
    }
    var fields := Fields(line);
    if |fields| < 6 { return None; }
    if LooksLikeCronField(fields[5]) { return None; }
    var sched := Join(fields[..5], " ");
    var rest := line;
    for i := 0 to 5
      invariant Fields(rest) == fields[i..]
      invariant DropWords(rest, 5 - i) == DropWords(line, 5)
    {
      FirstWord(rest, 4 - i);
      var idx := IndexSub(rest, fields[i]);
      rest := rest[idx + |fields[i]|..];
    }
    DropNone(rest);
    return Some((sched, TrimSpace(rest)));
  }

  lemma DropNone(s: string)
    ensures DropWords(s, 0) == s
  {
  }

  /** A text with a field is spaces, that field, and the rest. */
  lemma FirstWordSplit(s: string) returns (lead: string, w: string, more: string)
    requires Fields(s) != []
    ensures s == lead + (w + more) && All(lead, IsSpace)
    ensures w != "" && NoSpaces(w) && (more == "" || IsSpace(more[0]))
    ensures Fields(s) == [w] + Fields(more) && more == AfterWord(s)
  {
    hide Fields, TrimLeft, WordLength;
    var t := TrimLeft(s, IsSpace);
    lead := s[..|s| - |t|];
    assert s == lead + t;
    FieldsAfterSpaces(lead, t);
    FieldsOfNothing();
    assert t != "";
    w, more := t[..WordLength(t)], t[WordLength(t)..];
    assert t == w + more;
    FieldsOfWord(w, more);
  }

  lemma SliceAfter(lead: string, w: string, more: string)
    ensures (lead + (w + more))[|lead| + |w|..] == more
  {
  }

  /** The first field of a text is where strings.Index finds it, and the rest
      of the fields are those of what follows. */
  lemma FirstWord(s: string, n: nat)
    requires Fields(s) != []
    ensures var f := Fields(s)[0];
      && 0 <= IndexSub(s, f) <= |s| - |f|
      && Fields(s[IndexSub(s, f) + |f|..]) == Fields(s)[1..]
      && DropWords(s, n + 1) == DropWords(s[IndexSub(s, f) + |f|..], n)
  {
    hide Fields, DropWords, IndexSub, AfterWord;
    var lead, w, more := FirstWordSplit(s);
    IndexAfterSpaces(lead, w, more);
    SliceAfter(lead, w, more);
    DropStep(s, n);
    assert s[IndexSub(s, w) + |w|..] == more;
  }

  lemma FieldsOfNothing()
    ensures Fields("") == []
  {
  }

  lemma {:induction false} FieldsAfterSpaces(lead: string, t: string)
    requires All(lead, IsSpace)
    ensures Fields(lead + t) == Fields(t)
  {
    if lead == "" {
      assert lead + t == t;
    } else {
      assert (lead + t)[1..] == lead[1..] + t;
      FieldsAfterSpaces(lead[1..], t);
    }
  }

  lemma OccursHead(s: string, w: string)
    requires w != "" && s != ""
    ensures OccursAt(s, w, 0) ==> s[0] == w[0]
  {
    if OccursAt(s, w, 0) {
      assert s[0..0 + |w|][0] == s[0];
    }
  }

  lemma {:induction false} IndexAfterSpaces(lead: string, w: string, rest: string)
    requires All(lead, IsSpace) && w != "" && NoSpaces(w)
    ensures IndexSub(lead + (w + rest), w) == |lead|
  {
    var s := lead + (w + rest);
    if lead == "" {
      assert s == w + rest;
      assert s[0..0 + |w|] == w;
    } else {
      assert s[1..] == lead[1..] + (w + rest);
      IndexAfterSpaces(lead[1..], w, rest);
      assert s[0] == lead[0] && !IsSpace(w[0]);
      OccursHead(s, w);
    }
  }

  lemma DropFirst(line: string)
    requires Trimmed(line, IsSpace) && line != ""
    ensures Fields(line) != [] && |Fields(line)[0]| <= |line|
    ensures DropWords(line, 1) == line[|Fields(line)[0]|..]
    ensures Join(Fields(line)[..1], " ") == Fields(line)[0]
  {
    hide Fields, DropWords;
    FirstField(line);
    TrimLeftFixed(line, IsSpace);
    DropStep(line, 0);
    DropNone(line[WordLength(line)..]);
    assert Fields(line)[..1] == [Fields(line)[0]];
  }

  method ParseCrontab(text: string) returns (entries: seq<Entry>)
    ensures entries == Entries(Split(text, '\n'))
  {
    hide NameFromCommand, SplitLine, IsAssignment, TrimSpace, Split;
    entries := [];
    var lines := Split(text, '\n');
    for i := 0 to |lines|
      invariant entries == Entries(lines[..i])
    {
      assert lines[..i + 1][..i] == lines[..i];
      var line := TrimSpace(lines[i]);
      if line == "" || line[0] == '#' || IsAssignment(line) { continue; }
      var split := SplitCrontabLine(line);
      if split.None? { continue; }
      entries := entries + [MakeEntry(split.value.0, split.value.1, i + 1)];
    }
    assert lines[..|lines|] == lines;
  }

  /** The leading blanks of a line, which a rewrite keeps. */
  function Indent(raw: string): (r: string)
    ensures forall i :: 0 <= i < |r| ==> Blank(r[i])
  {
    raw[..|raw| - |TrimLeft(raw, Blank)|]
  }

  function Replaced(text: string, line: int, want: string, replacement: string): Result<string> {
    var lines := Split(text, '\n');
    if line < 1 || line > |lines| then Failure
    else
      match SplitLine(TrimSpace(lines[line - 1]))
      case None => Failure
      case Some((sched, cmd)) =>
        if cmd != want then Failure
        else
          Success(Join(lines[line - 1 := Indent(lines[line - 1]) + sched + " " + replacement], "\n"))
  }

  method ReplaceCrontabCommand(text: string, line: int, want: string, replacement: string)
    returns (r: Result<string>)
    ensures r == Replaced(text, line, want, replacement)
  {
    hide SplitLine, TrimSpace, Split, Join;
    if line < 1 { return Failure; }
    var lines := Split(text, '\n');
    if line > |lines| { return Failure; }
    var raw := lines[line - 1];
    var split := SplitCrontabLine(TrimSpace(raw));
    if split.None? { return Failure; }
    var (sched, cmd) := split.value;
    if cmd != want { return Failure; }
    lines := lines[line - 1 := Indent(raw) + sched + " " + replacement];
    return Success(Join(lines, "\n"));
  }

  // ----- names -----

  const MARK_WRAPPER := "goguma-mark"

  const EXTENSIONS: seq<string> := [".sh", ".py", ".rb", ".js", ".pl", ".bash", ".zsh"]

  predicate Slash(c: char) { c == '/' }

  /** What follows the last slash. */
  function AfterSlash(path: string): string {
    var i := IndexOf(path, Slash);
    if i < |path| then AfterSlash(path[i + 1..]) else path
  }

  function DropExtension(base: string, exts: seq<string>): string {
    if exts == [] then base
    else if HasSuffix(base, exts[0]) then base[..|base| - |exts[0]|]
    else DropExtension(base, exts[1..])
  }

  function Basename(path: string): string {
    DropExtension(AfterSlash(path), EXTENSIONS)
  }

  /** The first position from i on that holds the separator, or the length. */
  function Separator(fields: seq<string>, i: nat): (k: nat)
    requires i <= |fields|
    ensures i <= k <= |fields|
    decreases |fields| - i
  {
    if i == |fields| || fields[i] == "--" then i else Separator(fields, i + 1)
  }

  function UnwrapMark(cmd: string): Option<(string, string)> {
    var fields := Fields(cmd);
    if |fields| < 3 || Basename(fields[0]) != MARK_WRAPPER then None
    else
      var sep := Separator(fields, 1);
      if sep == |fields| || sep < 2 then None
      else Some((fields[1], Join(fields[sep + 1..], " ")))
  }

  predicate Redirect(c: char) { c == '>' || c == '|' }

  /** The command without its redirections. */
  function WithoutRedirect(cmd: string): string {
    var c := TrimSpace(cmd);
    var i := IndexOf(c, Redirect);
    if 0 < i < |c| then TrimSpace(c[..i]) else c
  }

  predicate IsInterpreter(name: string) {
    name in ["sh", "bash", "zsh", "python", "python3", "ruby", "node", "perl", "env"]
  }

  predicate Awkward(c: char) {
    c in "/><|&$\"'`="
  }

  /** The base name of the first argument that is not an option. */
  function ScriptName(args: seq<string>): Option<string> {
    if args == [] then None
    else if HasPrefix(args[0], "-") || Basename(args[0]) == "" then ScriptName(args[1..])
    else Some(Basename(args[0]))
  }

  /** The program and up to two plain words after it. */
  function NameParts(parts: seq<string>, args: seq<string>): seq<string>
    decreases args
  {
    if args == [] || |parts| >= 3 then parts
    else if HasPrefix(args[0], "-") || IndexOf(args[0], Awkward) < |args[0]| then NameParts(parts, args[1..])
    else NameParts(parts + [args[0]], args[1..])
  }

  function NameFromCommand(command: string): string {
    var cmd := WithoutRedirect(command);
    match UnwrapMark(cmd)
    case Some((name, _)) => name
    case None =>
      var fields := Fields(cmd);
      if fields == [] then "job"
      else
        var prog := Basename(fields[0]);
        if IsInterpreter(prog) && ScriptName(fields[1..]).Some? then ScriptName(fields[1..]).value
        else Join(NameParts([prog], fields[1..]), "-")
  }

  // ----- the rewritten line -----

  /** A replacement the rewrite supports: one trimmed, non-empty line. */
  ghost predicate OneLine(replacement: string) {
    replacement != "" && Trimmed(replacement, IsSpace) && '\n' !in replacement
  }

  lemma {:induction false} JoinedFields(ws: seq<string>, rest: string)
    requires ws != [] && forall i :: 0 <= i < |ws| ==> ws[i] != "" && NoSpaces(ws[i])
    ensures Fields(Join(ws, " ") + (" " + rest)) == ws + Fields(rest)
    ensures DropWords(Join(ws, " ") + (" " + rest), |ws|) == " " + rest
  {
    hide Fields, DropWords;
    var w := ws[0];
    if |ws| == 1 {
      FieldsOfWord(w, " " + rest);
      FieldsAfterSpaces(" ", rest);
      DropOne(w, " " + rest, 0);
      DropNone(" " + rest);
      assert ws == [w];
    } else {
      var tail := Join(ws[1..], " ") + (" " + rest);
      JoinedFields(ws[1..], rest);
      assert Join(ws, " ") + (" " + rest) == w + (" " + tail);
      FieldsOfWord(w, " " + tail);
      FieldsAfterSpaces(" ", tail);
      DropOne(w, " " + tail, |ws| - 1);
      DropAfterSpace(tail, |ws| - 1);
      assert ws == [w] + ws[1..];
    }
  }

  lemma DropOne(w: string, rest: string, n: nat)
    requires w != "" && NoSpaces(w) && rest != "" && IsSpace(rest[0])
    ensures DropWords(w + rest, n + 1) == DropWords(rest, n)
  {
    hide DropWords, TrimLeft, WordLength;
    WordLengthOf(w, rest);
    TrimLeftFixed(w + rest, IsSpace);
    assert (w + rest)[|w|..] == rest;
    DropStep(w + rest, n);
  }

  lemma DropStep(s: string, n: nat)
    ensures DropWords(s, n + 1) == DropWords(AfterWord(s), n)
  {
  }

  lemma AfterWordSpace(s: string)
    ensures AfterWord(" " + s) == AfterWord(s)
  {
    hide TrimLeft, WordLength;
    TrimLeftPrefix(" ", s, IsSpace);
  }

  lemma DropAfterSpace(s: string, n: nat)
    requires n > 0
    ensures DropWords(" " + s, n) == DropWords(s, n)
  {
    hide DropWords, AfterWord;
    DropStep(" " + s, n - 1);
    DropStep(s, n - 1);
    AfterWordSpace(s);
  }

  lemma {:induction false} JoinStarts(ws: seq<string>)
    requires ws != [] && ws[0] != ""
    ensures ws[0] <= Join(ws, " ") && Join(ws, " ") != "" && Join(ws, " ")[0] == ws[0][0]
  {
  }

  lemma TrimSpaced(s: string)
    requires Trimmed(s, IsSpace)
    ensures TrimSpace(" " + s) == s
  {
    hide Trim;
    TrimUnique(" ", s, "", IsSpace);
    assert " " + s + "" == " " + s;
  }

  lemma FieldsOfTrimmed(s: string)
    requires s != "" && Trimmed(s, IsSpace)
    ensures Fields(s) != []
    ensures s[0] == Fields(s)[0][0]
    ensures Fields(s)[0] <= s
  {
    FirstField(s);
  }

  /** Putting a schedule back in front of a replacement splits again into the
      same two parts, unless the schedule is in five fields and the replacement
      starts with what could be a sixth. */
  lemma SplitRebuiltIff(line: string, replacement: string)
    requires line != "" && Trimmed(line, IsSpace) && SplitLine(line).Some? && OneLine(replacement)
    ensures var sched := SplitLine(line).value.0;
      SplitLine(sched + (" " + replacement)) == Some((sched, replacement)) <==>
        HasPrefix(sched, "@") || !StartsLikeCron(replacement)
  {
    hide Fields, DropWords, TrimSpace, LooksLikeCronField, Join;
    var k := ScheduleWords(line);
    var ws := Fields(line)[..k];
    var sched := Join(ws, " ");
    var s := sched + (" " + replacement);
    FieldsOfTrimmed(replacement);
    FieldsOfTrimmed(line);
    JoinedFields(ws, replacement);
    JoinStarts(ws);
    assert s[0] == sched[0] == line[0];
    assert Fields(s)[..k] == ws && Fields(s)[k] == Fields(replacement)[0];
    TrimSpaced(replacement);
  }

  lemma BlankBefore(s: string, eq: nat, k: nat)
    requires k < eq <= |s| && Blank(s[k])
    ensures IndexOf(s[..eq], Blank) < eq
  {
    assert s[..eq][k] == s[k];
  }

  lemma IndexIs(s: string, p: char -> bool, i: nat)
    requires i < |s| && p(s[i]) && forall k :: 0 <= k < i ==> !p(s[k])
    ensures IndexOf(s, p) == i
  {
    hide IndexOf;
  }

  /** An assignment is one by its first word alone. */
  lemma AssignmentIsInWord(line: string, w: string, rest: string)
    requires w <= line && NoSpaces(w) && IsAssignment(w + (" " + rest))
    ensures IsAssignment(line)
  {
    hide IndexOf;
    var s := w + (" " + rest);
    var eq := IndexOf(s, Equals);
    assert s[|w|] == ' ';
    if |w| < eq { BlankBefore(s, eq, |w|); }
    assert eq < |w|;
    assert forall k :: 0 <= k <= eq ==> line[k] == w[k] == s[k];
    IndexIs(line, Equals, eq);
    assert line[..eq] == s[..eq];
  }

  /** A rewritten line parses to its old schedule and its new command. */
  lemma RewrittenLineParses(raw: string, replacement: string)
    requires ParseLine(raw).Some? && OneLine(replacement)
    requires HasPrefix(ParseLine(raw).value.0, "@") || !StartsLikeCron(replacement)
    ensures ParseLine(Indent(raw) + ParseLine(raw).value.0 + " " + replacement) ==
      Some((ParseLine(raw).value.0, replacement))
  {
    hide Fields, DropWords, IsAssignment, StartsLikeCron, Join, TrimSpace, Trim;
    var line := TrimSpace(raw);
    var sched := ParseLine(raw).value.0;
    var s := sched + (" " + replacement);
    SplitRebuiltIff(line, replacement);
    var ws := Fields(line)[..ScheduleWords(line)];
    FieldsOfTrimmed(line);
    JoinStarts(ws);
    JoinOfFirst(ws, replacement);
    var rest :| s == ws[0] + (" " + rest);
    if IsAssignment(s) { AssignmentIsInWord(line, ws[0], rest); }
    TrimIndented(Indent(raw), s);
    assert Indent(raw) + sched + " " + replacement == Indent(raw) + s;
  }

  lemma JoinOfFirst(ws: seq<string>, replacement: string)
    requires ws != []
    ensures exists rest :: Join(ws, " ") + (" " + replacement) == ws[0] + (" " + rest)
  {
    if |ws| == 1 {
      assert Join(ws, " ") + (" " + replacement) == ws[0] + (" " + replacement);
    } else {
      var rest := Join(ws[1..], " ") + (" " + replacement);
      assert Join(ws, " ") + (" " + replacement) == ws[0] + (" " + rest);
    }
  }

  lemma TrimIndented(indent: string, s: string)
    requires All(indent, Blank) && s != "" && Trimmed(s, IsSpace)
    ensures TrimSpace(indent + s) == s
  {
    hide Trim;
    TrimUnique(indent, s, "", IsSpace);
    assert indent + s + "" == indent + s;
  }

  // ----- the rewritten file -----

  /** The entries with one line's command replaced, and its derived name. */
  function Recommanded(es: seq<Entry>, line: nat, replacement: string): seq<Entry> {
    if es == [] then []
    else
      Recommanded(es[..|es| - 1], line, replacement) +
      [if es[|es| - 1].line == line then MakeEntry(es[|es| - 1].schedule, replacement, line) else es[|es| - 1]]
  }

  lemma {:induction false} EntryLines(lines: seq<string>)
    ensures forall e :: e in Entries(lines) ==> 1 <= e.line <= |lines|
  {
    hide ParseLine, NameFromCommand;
    if lines != [] {
      EntryLines(lines[..|lines| - 1]);
    }
  }

  lemma {:induction false} RecommandedElsewhere(es: seq<Entry>, line: nat, replacement: string)
    requires forall e :: e in es ==> e.line != line
    ensures Recommanded(es, line, replacement) == es
  {
    hide MakeEntry;
    if es != [] {
      RecommandedElsewhere(es[..|es| - 1], line, replacement);
      assert es == es[..|es| - 1] + [es[|es| - 1]];
      assert es[|es| - 1] in es;
    }
  }

  /** Replacing the command on the last line, or on an earlier one. */
  lemma RecommandedLine(es: seq<Entry>, raw: string, n: nat, line: nat, replacement: string)
    ensures Recommanded(es + LineEntries(raw, n), line, replacement) == Recommanded(es, line, replacement) +
      if line == n && ParseLine(raw).Some? then [MakeEntry(ParseLine(raw).value.0, replacement, n)]
      else LineEntries(raw, n)
  {
    hide ParseLine, NameFromCommand;
    if ParseLine(raw).Some? {
      var e := MakeEntry(ParseLine(raw).value.0, ParseLine(raw).value.1, n);
      assert LineEntries(raw, n) == [e];
      assert (es + [e])[..|es|] == es;
    } else {
      assert es + LineEntries(raw, n) == es;
    }
  }

  lemma {:induction false} RewrittenEntries(lines: seq<string>, i: nat, raw: string, replacement: string)
    requires i < |lines| && ParseLine(lines[i]).Some?
    requires ParseLine(raw) == Some((ParseLine(lines[i]).value.0, replacement))
    ensures Entries(lines[i := raw]) == Recommanded(Entries(lines), i + 1, replacement)
  {
    hide ParseLine, Recommanded, NameFromCommand;
    var n := |lines|;
    var front, last := lines[..n - 1], lines[n - 1];
    RecommandedLine(Entries(front), last, n, i + 1, replacement);
    if i < n - 1 {
      RewrittenEntries(front, i, raw, replacement);
      assert lines[i := raw][..n - 1] == front[i := raw];
    } else {
      assert lines[i := raw][..n - 1] == front;
      EntryLines(front);
      RecommandedElsewhere(Entries(front), n, replacement);
    }
  }

  lemma {:induction false} EntryOfLine(lines: seq<string>, e: Entry)
    requires e in Entries(lines)
    ensures 1 <= e.line <= |lines|
    ensures ParseLine(lines[e.line - 1]) == Some((e.schedule, e.command))
  {
    hide ParseLine, NameFromCommand;
    var n := |lines|;
    if e in Entries(lines[..n - 1]) {
      EntryOfLine(lines[..n - 1], e);
    }
  }

  lemma {:induction false} JoinNoNewline(ws: seq<string>)
    requires forall i :: 0 <= i < |ws| ==> '\n' !in ws[i]
    ensures '\n' !in Join(ws, " ")
  {
    if |ws| > 1 { JoinNoNewline(ws[1..]); }
  }

  lemma ScheduleIsOneLine(line: string)
    requires SplitLine(line).Some?
    ensures '\n' !in SplitLine(line).value.0
  {
    hide Fields, DropWords, TrimSpace, LooksLikeCronField;
    var ws := Fields(line)[..ScheduleWords(line)];
    forall i | 0 <= i < |ws|
      ensures '\n' !in ws[i]
    {
      assert NoSpaces(Fields(line)[i]);
    }
    JoinNoNewline(ws);
  }

  /** A rewrite that succeeds changes one line and leaves every other line as
      it was, byte for byte. */
  lemma RewriteTouchesOneLine(text: string, line: int, want: string, replacement: string)
    requires '\n' !in replacement && Replaced(text, line, want, replacement).Success?
    ensures 1 <= line <= |Split(text, '\n')|
    ensures var lines := Split(text, '\n');
      SplitLine(TrimSpace(lines[line - 1])).Some?
      && Split(Replaced(text, line, want, replacement).value, '\n') == lines[line - 1 :=
        Indent(lines[line - 1]) + SplitLine(TrimSpace(lines[line - 1])).value.0 + " " + replacement]
  {
    hide SplitLine, TrimSpace, Split, Join;
    var lines := Split(text, '\n');
    var raw := lines[line - 1];
    ScheduleIsOneLine(TrimSpace(raw));
    var rewritten := Indent(raw) + SplitLine(TrimSpace(raw)).value.0 + " " + replacement;
    assert '\n' !in rewritten;
    SplitJoin(lines[line - 1 := rewritten], '\n');
  }

  /** Rewriting an entry the scan found, and scanning again, gives the same
      entries with only that line's command and derived name changed. */
  lemma RewriteReparses(text: string, e: Entry, replacement: string)
    requires e in Entries(Split(text, '\n')) && OneLine(replacement)
    requires HasPrefix(e.schedule, "@") || !StartsLikeCron(replacement)
    ensures Replaced(text, e.line, e.command, replacement).Success?
    ensures Entries(Split(Replaced(text, e.line, e.command, replacement).value, '\n')) ==
      Recommanded(Entries(Split(text, '\n')), e.line, replacement)
  {
    hide Entries, Split, Join, Recommanded, SplitLine, TrimSpace, Fields, StartsLikeCron, IsAssignment, Indent;
    var lines := Split(text, '\n');
    EntryOfLine(lines, e);
    var raw := lines[e.line - 1];
    RewrittenLineParses(raw, replacement);
    RewriteTouchesOneLine(text, e.line, e.command, replacement);
    RewrittenEntries(lines, e.line - 1, Indent(raw) + e.schedule + " " + replacement, replacement);
  }

  /** An entry of the scan is what its line says: named after its command, at risk
      of being missed unless it names a descriptor other than daily or midnight, and
      in no need of a wake if it runs at boot. */
  lemma {:induction false} EntriesSay(lines: seq<string>, e: Entry)
    requires e in Entries(lines)
    ensures 1 <= e.line <= |lines| && ParseLine(lines[e.line - 1]) == Some((e.schedule, e.command))
    ensures e.name == NameFromCommand(e.command)
    ensures e.selfHealing <==> "@reboot" <= e.schedule
    ensures !e.timeSensitive <==> "@" <= e.schedule && e.schedule != "@daily" && e.schedule != "@midnight"
  {
    hide ParseLine, NameFromCommand;
    EntryOfLine(lines, e);
    if e in Entries(lines[..|lines| - 1]) { EntriesSay(lines[..|lines| - 1], e); }
  }

  // ----- what may be rewritten -----

  /** A rewrite is refused unless the line is there, splits into a schedule and a
      command, and still has the wanted command. */
  lemma RewrittenIff(text: string, line: int, want: string, replacement: string)
    ensures var lines := Split(text, '\n');
            Replaced(text, line, want, replacement).Success? <==>
              && 1 <= line <= |lines| && SplitLine(TrimSpace(lines[line - 1])).Some?
              && SplitLine(TrimSpace(lines[line - 1])).value.1 == want
  {
    hide Split, Join, TrimSpace, SplitLine;
  }

  /** The rewrite looks for a schedule and the wanted command, not for a job: a
      line it accepts is none exactly when it is a comment or an assignment. */
  lemma RewritesNoJobIff(text: string, line: int, want: string, replacement: string)
    requires Replaced(text, line, want, replacement).Success?
    ensures 1 <= line <= |Split(text, '\n')| && TrimSpace(Split(text, '\n')[line - 1]) != ""
    ensures var raw := Split(text, '\n')[line - 1];
            ParseLine(raw) == None <==> TrimSpace(raw)[0] == '#' || IsAssignment(TrimSpace(raw))
  {
    hide Split, Join, TrimSpace, IsAssignment, DropWords, LooksLikeCronField;
  }

  /** A job that was commented out since the scan, with nothing after the mark,
      still shows the command it had, and so it is rewritten. */
  lemma CommentedOutIsRewritten(line: string, replacement: string)
    requires line != "" && Trimmed(line, IsSpace) && line[0] != '@' && '\n' !in line
    requires SplitLine(line).Some?
    ensures ParseLine("#" + line) == None
    ensures Replaced("#" + line, 1, SplitLine(line).value.1, replacement).Success?
  {
    hide Fields, TrimSpace, DropWords, LooksLikeCronField, Join, Split;
    var out := "#" + line;
    FieldsOfTrimmed(line);
    MarkedLine(line);
    assert Fields(out)[5] == Fields(line)[5];
    Untrimmed(out);
    SplitAlone(out, '\n');
  }

  lemma Untrimmed(s: string)
    requires Trimmed(s, IsSpace)
    ensures TrimSpace(s) == s
  {
    TrimFixed(s, IsSpace);
  }

  lemma MarkedLine(line: string)
    requires line != "" && Trimmed(line, IsSpace) && Fields(line) != []
    ensures Fields("#" + line) == ["#" + Fields(line)[0]] + Fields(line)[1..]
    ensures DropWords("#" + line, 5) == DropWords(line, 5)
  {
    hide Fields, DropWords, AfterWord;
    FirstField(line);
    var w, more := line[..WordLength(line)], line[WordLength(line)..];
    assert line == w + more && "#" + line == ("#" + w) + more;
    FieldsOfWord(w, more);
    FieldsOfWord("#" + w, more);
    DropOne5("#" + w, more);
    DropOne5(w, more);
  }

  lemma DropOne5(w: string, rest: string)
    requires w != "" && NoSpaces(w) && (rest == "" || IsSpace(rest[0]))
    ensures DropWords(w + rest, 5) == DropWords(rest, 4)
  {
    hide DropWords, TrimLeft, WordLength;
    WordLengthOf(w, rest);
    TrimLeftFixed(w + rest, IsSpace);
    assert (w + rest)[|w|..] == rest;
    DropStep(w + rest, 4);
  }

  /** An assignment followed by what reads as the rest of a schedule and a
      command is rewritten too. */
  lemma AssignmentIsRewritten(replacement: string)
    ensures ParseLine("A=1 b c d e cmd") == None
    ensures Replaced("A=1 b c d e cmd", 1, "cmd", replacement).Success?
  {
    hide Fields, TrimSpace, DropWords, Split, IsAssignment, LooksLikeCronField, Join;
    var line, ws := "A=1 b c d e cmd", ["A=1", "b", "c", "d", "e"];
    AssignmentHere();
    JoinOfFive("A=1", "b", "c", "d", "e");
    assert line == Join(ws, " ") + (" " + "cmd");
    JoinedFields(ws, "cmd");
    OneWord("cmd");
    TrimSpaced("cmd");
    Untrimmed(line);
    SplitAlone(line, '\n');
    assert !LooksLikeCronField("cmd") by { NoCronRune("cmd"); }
  }

  lemma OneWord(w: string)
    requires w != "" && NoSpaces(w)
    ensures Fields(w) == [w]
  {
    FieldsOfWord(w, "");
    assert w + "" == w;
    FieldsOfNothing();
  }

  lemma NoCronRune(w: string)
    requires w != "" && !CronRune(w[0])
    ensures !LooksLikeCronField(w)
  {
  }

  lemma AssignmentHere()
    ensures IsAssignment("A=1 b c d e cmd")
  {
    var line := "A=1 b c d e cmd";
    assert Equals(line[1]);
    IndexIs(line, Equals, 1);
    assert line[..1] == "A";
  }

  lemma JoinOfFive(a: string, b: string, c: string, d: string, e: string)
    ensures Join([a, b, c, d, e], " ") == a + " " + (b + " " + (c + " " + (d + " " + e)))
  {
    JoinMore(a, [b, c, d, e]);
    JoinMore(b, [c, d, e]);
    JoinMore(c, [d, e]);
    JoinMore(d, [e]);
  }

  lemma JoinMore(w: string, ws: seq<string>)
    requires ws != []
    ensures Join([w] + ws, " ") == w + " " + Join(ws, " ")
  {
    assert ([w] + ws)[1..] == ws;
  }

  // ----- wrapped lines -----

  predicate NeedsQuote(c: char) {
    c in " \t\n\"'\\$`&|;<>()*?[]#~!"
  }

  /** A path as one word of a crontab line. */
  function ShellQuote(path: string): string {
    if IndexOf(path, NeedsQuote) == |path| then path else "'" + QuoteInner(path) + "'"
  }

  function QuoteInner(path: string): string {
    if path == "" then ""
    else (if path[0] == '\'' then "'\\''" else [path[0]]) + QuoteInner(path[1..])
  }

  function WrapCommand(path: string, slug: string, command: string): string {
    ShellQuote(path) + " " + slug + " -- " + command
  }

  lemma {:induction false} AfterSlashOf(dir: string, base: string)
    requires forall i :: 0 <= i < |base| ==> base[i] != '/'
    ensures AfterSlash(dir + ("/" + base)) == base
    decreases |dir|
  {
    var s := dir + ("/" + base);
    var i := IndexOf(s, Slash);
    assert s[|dir|] == '/';
    assert i <= |dir|;
    if i == |dir| {
      assert s[i + 1..] == base;
      assert IndexOf(base, Slash) == |base|;
    } else {
      assert s[i + 1..] == dir[i + 1..] + ("/" + base);
      AfterSlashOf(dir[i + 1..], base);
    }
  }

  lemma MarkHasNoExtension()
    ensures DropExtension(MARK_WRAPPER, EXTENSIONS) == MARK_WRAPPER
  {
    assert MARK_WRAPPER[|MARK_WRAPPER| - 1] == 'k';
    NoSuffix(MARK_WRAPPER, EXTENSIONS);
  }

  lemma SuffixEnds(base: string, ext: string)
    requires base != "" && ext != ""
    ensures HasSuffix(base, ext) ==> ext[|ext| - 1] == base[|base| - 1]
  {
    if HasSuffix(base, ext) {
      assert base[|base| - |ext|..][|ext| - 1] == base[|base| - 1];
    }
  }

  lemma {:induction false} NoSuffix(base: string, exts: seq<string>)
    requires base != ""
    requires forall i :: 0 <= i < |exts| ==> exts[i] != "" && exts[i][|exts[i]| - 1] != base[|base| - 1]
    ensures DropExtension(base, exts) == base
  {
    if exts != [] {
      SuffixEnds(base, exts[0]);
      NoSuffix(base, exts[1..]);
    }
  }

  /** A text up to its first redirection. */
  function Cut(s: string): string {
    s[..IndexOf(s, Redirect)]
  }

  predicate Plain(s: string) {
    IndexOf(s, Redirect) == |s|
  }

  lemma CutJoin(a: string, b: string)
    ensures Cut(a + b) == if Plain(a) then a + Cut(b) else Cut(a)
    ensures Plain(a + b) <==> Plain(a) && Plain(b)
  {
    hide IndexOf;
    var i, k := IndexOf(a, Redirect), IndexOf(b, Redirect);
    assert forall m :: 0 <= m < |a| ==> (a + b)[m] == a[m];
    assert forall m :: 0 <= m < |b| ==> (a + b)[|a| + m] == b[m];
    if i < |a| {
      IndexIs(a + b, Redirect, i);
    } else if k < |b| {
      IndexIs(a + b, Redirect, |a| + k);
    }
  }

  lemma NoRedirect(s: string)
    requires forall i :: 0 <= i < |s| ==> !Redirect(s[i])
    ensures Plain(s) && Cut(s) == s
  {
  }

  lemma FieldsOfTrim(s: string)
    ensures Fields(TrimSpace(s)) == Fields(s)
  {
    hide Fields, Trim;
    var pre, suf := TrimSplit(s, IsSpace);
    FieldsAfterSpaces(pre, TrimSpace(s) + suf);
    FieldsAppend(TrimSpace(s), suf);
    FieldsOfSpaces(suf);
  }

  lemma {:induction false} TrimKeepsFirst(s: string)
    requires s != "" && !IsSpace(s[0])
    ensures TrimRight(s, IsSpace) != "" && TrimRight(s, IsSpace)[0] == s[0]
  {
    if IsSpace(s[|s| - 1]) { TrimKeepsFirst(s[..|s| - 1]); }
  }

  /** What the scan reads of a command is its words up to a redirection. */
  lemma ScannedWords(cmd: string)
    requires cmd != "" && !IsSpace(cmd[0]) && !Redirect(cmd[0])
    ensures Fields(WithoutRedirect(cmd)) == Fields(Cut(cmd))
  {
    hide Fields, TrimLeft, TrimRight, IndexOf;
    TrimLeftFixed(cmd, IsSpace);
    var c := TrimSpace(cmd);
    var suf := SplitRight(cmd, IsSpace);
    TrimKeepsFirst(cmd);
    CutJoin(c, suf);
    NoRedirect(suf);
    FieldsOfTrim(Cut(c));
    FieldsOfTrim(cmd);
  }

  /** The words the scan reads of a line whose first word is this one. */
  lemma ScannedLine(word: string, mid: string, command: string) returns (extra: seq<string>)
    requires word != "" && NoSpaces(word) && !Redirect(word[0])
    ensures var words := Fields(WithoutRedirect(word + (" " + (mid + (" " + command)))));
            if Plain(word) then words == [word] + Fields(Cut(mid)) + extra else |words| <= 1
    ensures !Plain(mid) ==> extra == []
  {
    hide Fields, WithoutRedirect, IndexOf;
    var line := mid + (" " + command);
    var cmd := word + (" " + line);
    assert cmd[0] == word[0];
    ScannedWords(cmd);
    CutJoin(word, " " + line);
    extra := [];
    if Plain(word) {
      CutJoin(" ", line);
      NoRedirect(" ");
      FieldsOfWord(word, " " + Cut(line));
      FieldsAfterSpaces(" ", Cut(line));
      CutJoin(mid, " " + command);
      if Plain(mid) {
        CutJoin(" ", command);
        assert Cut(mid) == mid;
        extra := Fields(" " + Cut(command));
        FieldsAppend(mid, " " + Cut(command));
        assert [word] + (Fields(mid) + extra) == [word] + Fields(mid) + extra;
      }
    } else {
      OneField(Cut(word));
    }
  }

  lemma OneField(w: string)
    requires NoSpaces(w)
    ensures |Fields(w)| <= 1
  {
    if w == "" { FieldsOfNothing(); } else { OneWord(w); }
  }

  /** The scan sees a line as wrapped exactly when its first word holds no
      redirection and names the wrapper, and a separator follows, but not at
      once; and it then takes the second word for the name. */
  lemma SeenIff(word: string, mid: string, command: string)
    requires word != "" && NoSpaces(word) && !Redirect(word[0])
    requires Plain(mid) ==> "--" in Fields(mid)
    ensures var cmd, words := word + (" " + (mid + (" " + command))), Fields(Cut(mid));
            && (UnwrapMark(WithoutRedirect(cmd)).Some? <==>
                  Plain(word) && Basename(word) == MARK_WRAPPER && "--" in words && words[0] != "--")
            && (UnwrapMark(WithoutRedirect(cmd)).Some? ==> NameFromCommand(cmd) == words[0])
  {
    hide Fields, Basename, Separator, Join, WithoutRedirect, IndexOf, NameParts, ScriptName;
    var extra := ScannedLine(word, mid, command);
    var words := Fields(Cut(mid));
    if Plain(word) {
      var all := [word] + words + extra;
      assert words != [] ==> all[1] == words[0];
      if "--" in words {
        var i :| 0 <= i < |words| && words[i] == "--";
        assert all[1 + i] == "--";
        SeparatorBy(all, 1, 1 + i);
      } else {
        assert Plain(mid) ==> Cut(mid) == mid;
        assert all == [word] + words;
        NoSeparator(all, 1);
      }
    }
  }

  lemma {:induction false} SeparatorBy(fields: seq<string>, i: nat, k: nat)
    requires i <= k < |fields| && fields[k] == "--"
    ensures Separator(fields, i) <= k
    ensures Separator(fields, i) == i <==> fields[i] == "--"
    decreases k - i
  {
    if fields[i] != "--" { SeparatorBy(fields, i + 1, k); }
  }

  lemma {:induction false} NoSeparator(fields: seq<string>, i: nat)
    requires i <= |fields| && forall k :: i <= k < |fields| ==> fields[k] != "--"
    ensures Separator(fields, i) == |fields|
    decreases |fields| - i
  {
    if i < |fields| { NoSeparator(fields, i + 1); }
  }

  /** A wrapped line is scanned under the slug written into it, whatever its
      command, when the wrapper's path needs no quotes and holds no space. */
  lemma WrappedLineKeepsItsName(dir: string, slug: string, command: string)
    requires var path := dir + ("/" + MARK_WRAPPER);
      NoSpaces(path) && forall i :: 0 <= i < |path| ==> !NeedsQuote(path[i])
    requires Slugs.WellFormed(slug) && slug != ""
    ensures NameFromCommand(WrapCommand(dir + ("/" + MARK_WRAPPER), slug, command)) == slug
  {
    hide Fields, Basename, AfterSlash, DropExtension, UnwrapMark, NameFromCommand, IndexOf, QuoteInner;
    var path := dir + ("/" + MARK_WRAPPER);
    AfterSlashOf(dir, MARK_WRAPPER);
    MarkHasNoExtension();
    MarkBasename(path);
    NoQuoteNoRedirect(path);
    SlugWords(slug);
    SlugIsNotSeparator(slug);
    WrapIsWord(path, slug, command);
    SeenIff(path, slug + " --", command);
  }

  lemma NoQuoteNoRedirect(path: string)
    requires path != "" && forall i :: 0 <= i < |path| ==> !NeedsQuote(path[i])
    ensures Plain(path) && !Redirect(path[0]) && ShellQuote(path) == path
  {
    assert forall i :: 0 <= i < |path| ==> Redirect(path[i]) ==> NeedsQuote(path[i]);
    NoRedirect(path);
  }

  lemma SlugWords(slug: string)
    requires Slugs.WellFormed(slug) && slug != ""
    ensures Plain(slug + " --") && Cut(slug + " --") == slug + " --" && Fields(slug + " --") == [slug, "--"]
  {
    hide Fields, IndexOf, Slugs.WellFormed;
    SlugRunes(slug);
    NoRedirect(slug + " --");
    FieldsOfWord(slug, " --");
    FieldsAfterSpaces(" ", "--");
    assert " " + "--" == " --";
    OneWord("--");
  }

  lemma WrapIsWord(path: string, slug: string, command: string)
    ensures WrapCommand(path, slug, command) == ShellQuote(path) + (" " + (slug + " --" + (" " + command)))
  {
    hide ShellQuote;
    assert " -- " == " --" + " ";
  }

  lemma MarkBasename(path: string)
    requires AfterSlash(path) == MARK_WRAPPER && DropExtension(MARK_WRAPPER, EXTENSIONS) == MARK_WRAPPER
    ensures Basename(path) == MARK_WRAPPER
  {
  }

  lemma SlugRunes(slug: string)
    requires Slugs.WellFormed(slug)
    ensures NoSpaces(slug) && forall i :: 0 <= i < |slug| ==> !Redirect(slug[i])
  {
  }

  lemma SlugIsNotSeparator(slug: string)
    requires Slugs.WellFormed(slug) && slug != ""
    ensures slug != "--"
  {
  }

  lemma {:induction false} QuoteInnerOf(head: string, rest: string)
    requires '\'' !in head
    ensures QuoteInner(head + rest) == head + QuoteInner(rest)
  {
    if head == "" {
      assert head + rest == rest;
    } else {
      assert (head + rest)[1..] == head[1..] + rest;
      QuoteInnerOf(head[1..], rest);
    }
  }

  /** A wrapper whose path has a space is not seen again, for the scan splits
      the quoted path there; unless what lies before the first space is already
      named like the wrapper, in some directory, and a separator follows in what
      the scan reads, but not at once. The job is then called by the word after
      that space, whatever its slug. */
  lemma SpacedPathIsSeenIff(head: string, rest: string, slug: string, command: string)
    requires NoSpaces(head) && Slugs.WellFormed(slug) && slug != ""
    ensures var cmd := WrapCommand(head + (" " + rest), slug, command);
            var words := Fields(Cut(QuoteInner(rest) + ("' " + slug + " --")));
            && (UnwrapMark(WithoutRedirect(cmd)).Some? <==>
                  Plain(head) && '/' in head && Basename(head) == MARK_WRAPPER && "--" in words && words[0] != "--")
            && (UnwrapMark(WithoutRedirect(cmd)).Some? ==> NameFromCommand(cmd) == words[0])
  {
    hide Fields, QuoteInner, Basename, WithoutRedirect, WrapCommand, UnwrapMark, NameFromCommand, IndexOf;
    var word, mid := "'" + QuoteInner(head), QuoteInner(rest) + ("' " + slug + " --");
    SpacedWrap(head, rest, slug, command);
    QuoteInnerSpaces(head);
    QuotedBase(head);
    CutJoin("'", QuoteInner(head));
    NoRedirect("'");
    QuotedPlain(head);
    SpacedHasSeparator(rest, slug);
    SeenIff(word, mid, command);
  }

  lemma SpacedWrap(head: string, rest: string, slug: string, command: string)
    ensures WrapCommand(head + (" " + rest), slug, command) ==
              "'" + QuoteInner(head) + (" " + (QuoteInner(rest) + ("' " + slug + " --") + (" " + command)))
  {
    hide QuoteInner;
    var path := head + (" " + rest);
    assert path[|head|] == ' ' && NeedsQuote(' ');
    QuoteInnerJoin(head, " " + rest);
    QuoteInnerJoin(" ", rest);
    QuoteInnerPlain(" ");
    Regroup(QuoteInner(head), QuoteInner(rest), slug, command);
  }

  lemma Regroup(a: string, b: string, c: string, d: string)
    ensures "'" + (a + (" " + b)) + "'" + " " + c + " -- " + d
            == "'" + a + (" " + (b + ("' " + c + " --") + (" " + d)))
  {
    assert "'" + (a + (" " + b)) == "'" + a + (" " + b);
    assert "'" + " " + c == "' " + c && " -- " + d == " --" + (" " + d);
  }

  lemma SpacedHasSeparator(rest: string, slug: string)
    requires Slugs.WellFormed(slug) && slug != ""
    ensures "--" in Fields(QuoteInner(rest) + ("' " + slug + " --"))
  {
    hide Fields, QuoteInner, IndexOf, Slugs.WellFormed;
    var inner := QuoteInner(rest) + "'";
    assert QuoteInner(rest) + ("' " + slug + " --") == inner + (" " + (slug + " --"));
    FieldsAppend(inner, " " + (slug + " --"));
    FieldsAfterSpaces(" ", slug + " --");
    SlugWords(slug);
    assert Fields(slug + " --")[1] == "--";
  }

  /** Quoting adds no redirection. */
  lemma {:induction false} QuotedPlain(s: string)
    ensures Plain(QuoteInner(s)) <==> Plain(s)
  {
    if s != "" {
      var q := if s[0] == '\'' then "'\\''" else [s[0]];
      assert QuoteInner(s) == q + QuoteInner(s[1..]) && s == [s[0]] + s[1..];
      QuotedPlain(s[1..]);
      hide IndexOf;
      CutJoin(q, QuoteInner(s[1..]));
      CutJoin([s[0]], s[1..]);
      if s[0] == '\'' {
        NoRedirect(q);
        NoRedirect([s[0]]);
      }
    }
  }

  /** Quoting never changes whether a path's base is the wrapper's name, but an
      opening quote with no slash after it is part of the base. */
  lemma QuotedBase(head: string)
    ensures Basename("'" + QuoteInner(head)) == MARK_WRAPPER <==> '/' in head && Basename(head) == MARK_WRAPPER
  {
    hide QuoteInner, AfterSlash, DropExtension;
    AfterSlashQuoted("'", head);
    if '/' in head {
      var base := AfterSlash(head);
      if '\'' in base {
        QuoteStays(base);
        KeepsQuote(base, EXTENSIONS);
        KeepsQuote(QuoteInner(base), EXTENSIONS);
      } else {
        QuoteInnerPlain(base);
      }
    } else {
      var base := "'" + QuoteInner(head);
      assert base[0] == '\'';
      KeepsQuote(base, EXTENSIONS);
    }
    assert '\'' !in MARK_WRAPPER;
  }

  lemma QuoteStays(s: string)
    requires '\'' in s
    ensures '\'' in QuoteInner(s)
  {
    var i :| 0 <= i < |s| && s[i] == '\'';
    assert s == s[..i] + s[i..];
    QuoteInnerJoin(s[..i], s[i..]);
    assert QuoteInner(s[i..])[0] == '\'';
  }

  lemma {:induction false} KeepsQuote(base: string, exts: seq<string>)
    requires '\'' in base && forall i :: 0 <= i < |exts| ==> '\'' !in exts[i]
    ensures '\'' in DropExtension(base, exts)
  {
    if exts != [] {
      if HasSuffix(base, exts[0]) {
        var n := |base| - |exts[0]|;
        assert base == base[..n] + exts[0];
        assert '\'' !in exts[0];
      } else {
        KeepsQuote(base, exts[1..]);
      }
    }
  }

  /** Quoting adds no slash. */
  lemma {:induction false} AfterSlashQuoted(before: string, s: string)
    requires forall i :: 0 <= i < |before| ==> before[i] != '/'
    ensures AfterSlash(before + QuoteInner(s)) ==
              if '/' in s then QuoteInner(AfterSlash(s)) else before + QuoteInner(s)
    decreases |s|
  {
    hide AfterSlash;
    if s == "" {
      assert before + QuoteInner(s) == before;
      NoSlash(before);
    } else {
      var q := if s[0] == '\'' then "'\\''" else [s[0]];
      assert before + QuoteInner(s) == (before + q) + QuoteInner(s[1..]);
      assert ('/' in s) == (s[0] == '/' || '/' in s[1..]) by { assert s == [s[0]] + s[1..]; }
      if s[0] == '/' {
        SlashAfter(before, QuoteInner(s[1..]));
        assert before + ("/" + QuoteInner(s[1..])) == before + QuoteInner(s);
        AfterSlashQuoted("", s[1..]);
        assert "" + QuoteInner(s[1..]) == QuoteInner(s[1..]);
        SlashAfter("", s[1..]);
        assert "" + ("/" + s[1..]) == s;
        if '/' !in s[1..] { NoSlash(s[1..]); }
      } else {
        AfterSlashQuoted(before + q, s[1..]);
        if '/' in s[1..] { SlashLater(s); }
      }
    }
  }

  lemma NoSlash(s: string)
    requires '/' !in s
    ensures AfterSlash(s) == s
  {
    assert IndexOf(s, Slash) == |s|;
  }

  lemma SlashAfter(before: string, s: string)
    requires forall i :: 0 <= i < |before| ==> before[i] != '/'
    ensures AfterSlash(before + ("/" + s)) == AfterSlash(s)
  {
    var all := before + ("/" + s);
    assert all[|before|] == '/';
    IndexIs(all, Slash, |before|);
    assert all[|before| + 1..] == s;
  }

  lemma SlashLater(s: string)
    requires s != "" && s[0] != '/' && '/' in s[1..]
    ensures AfterSlash(s) == AfterSlash(s[1..])
  {
    var i := IndexOf(s[1..], Slash);
    var k :| 0 <= k < |s[1..]| && s[1..][k] == '/';
    assert i <= k;
    assert s[i + 1] == s[1..][i];
    assert forall j :: 0 <= j < i ==> s[j + 1] == s[1..][j];
    IndexIs(s, Slash, i + 1);
    assert s[i + 2..] == s[1..][i + 1..];
  }

  /** Where a path holds no space, its line is seen as wrapped exactly when the
      path needs no quotes: the closing quote becomes part of the name. */
  lemma WrapIsSeenIff(dir: string, slug: string, command: string)
    requires NoSpaces(dir + ("/" + MARK_WRAPPER)) && Slugs.WellFormed(slug) && slug != ""
    ensures var path := dir + ("/" + MARK_WRAPPER);
            UnwrapMark(WithoutRedirect(WrapCommand(path, slug, command))).Some? <==>
              forall i :: 0 <= i < |path| ==> !NeedsQuote(path[i])
  {
    hide UnwrapMark, WrapCommand, QuoteInner, WithoutRedirect, Fields, Basename, AfterSlash, DropExtension, IndexOf,
      NameFromCommand;
    var path := dir + ("/" + MARK_WRAPPER);
    SlugWords(slug);
    SlugIsNotSeparator(slug);
    WrapIsWord(path, slug, command);
    if forall i :: 0 <= i < |path| ==> !NeedsQuote(path[i]) {
      AfterSlashOf(dir, MARK_WRAPPER);
      MarkHasNoExtension();
      MarkBasename(path);
      NoQuoteNoRedirect(path);
      SeenIff(path, slug + " --", command);
    } else {
      QuotedWord(dir);
      SeenIff("'" + QuoteInner(path) + "'", slug + " --", command);
    }
  }

  /** A quoted wrapper path without spaces is one word, and not the wrapper's. */
  lemma QuotedWord(dir: string)
    requires NoSpaces(dir + ("/" + MARK_WRAPPER))
    ensures var word := "'" + QuoteInner(dir + ("/" + MARK_WRAPPER)) + "'";
      NoSpaces(word) && word != "" && Basename(word) != MARK_WRAPPER
  {
    hide QuoteInner, AfterSlash;
    var base := MARK_WRAPPER + "'";
    QuoteInnerJoin(dir, "/" + MARK_WRAPPER);
    QuoteInnerPlain("/" + MARK_WRAPPER);
    QuoteInnerSpaces(dir + ("/" + MARK_WRAPPER));
    var word := "'" + QuoteInner(dir + ("/" + MARK_WRAPPER)) + "'";
    var before := "'" + QuoteInner(dir);
    assert word == before + ("/" + base);
    AfterSlashOf(before, base);
    assert base[|base| - 1] == '\'';
    NoSuffix(base, EXTENSIONS);
  }

  lemma {:induction false} QuoteInnerJoin(a: string, b: string)
    ensures QuoteInner(a + b) == QuoteInner(a) + QuoteInner(b)
  {
    if a == "" {
      assert a + b == b;
    } else {
      assert (a + b)[1..] == a[1..] + b;
      QuoteInnerJoin(a[1..], b);
    }
  }

  lemma QuoteInnerPlain(s: string)
    requires '\'' !in s
    ensures QuoteInner(s) == s
  {
    QuoteInnerOf(s, "");
    assert s + "" == s;
  }

  lemma {:induction false} QuoteInnerSpaces(s: string)
    requires NoSpaces(s)
    ensures NoSpaces(QuoteInner(s))
  {
    if s != "" { QuoteInnerSpaces(s[1..]); }
  }
}
