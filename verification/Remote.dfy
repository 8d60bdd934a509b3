/**
 The remote side of internal/deploy/ssh.go: file paths for staged and live zone files,
 and shell quoting against a model of POSIX word splitting.
 */
module Remote {
  import opened Text

  // ---------------------------------------------------------------------
  // Shell words (sections 2.2.1, 2.2.2 and 2.3 of the Shell Command Language, POSIX.1-2017)
  // ---------------------------------------------------------------------

  datatype Mode = Unquoted | SingleQuoted | Escaped

  /** Words completed so far, the word being read, and the quoting mode; Unsupported once
      an unquoted operator, expansion or pattern character is met. */
  datatype Lexer = Lexer(words: seq<string>, current: Option<string>, mode: Mode) | Unsupported

  const START: Lexer := Lexer([], None, Unquoted)

  /** Unquoted characters that end a simple command or ask for an expansion. */
  predicate IsSpecial(c: char) {
    c in "|&;<>()$`\"*?[#~\n"
  }

  function Append(lx: Lexer, c: char): Lexer
    requires lx.Lexer?
  {
    Lexer(lx.words, Some((if lx.current.None? then "" else lx.current.value) + [c]), lx.mode)
  }

  function LexStep(lx: Lexer, c: char): Lexer {
    match lx
    case Unsupported => Unsupported
    case Lexer(words, current, Unquoted) =>
      if IsBlank(c) then Lexer(if current.None? then words else words + [current.value], None, Unquoted)
      else if c == '\'' then Lexer(words, Some(if current.None? then "" else current.value), SingleQuoted)
      else if c == '\\' then Lexer(words, current, Escaped)
      else if IsSpecial(c) then Unsupported
      else Append(lx, c)
    case Lexer(words, current, SingleQuoted) =>
      if c == '\'' then Lexer(words, current, Unquoted) else Append(lx, c)
    case Lexer(words, current, Escaped) =>
      if c == '\n' then Lexer(words, current, Unquoted) else Append(lx.(mode := Unquoted), c)
  }

  function Lex(lx: Lexer, s: string): Lexer
    decreases |s|
  {
    if s == "" then lx else Lex(LexStep(lx, s[0]), s[1..])
  }

  /** The words of a simple command, or None when it is not one the model covers. */
  function ShellWords(cmd: string): Option<seq<string>> {
    match Lex(START, cmd)
    case Lexer(words, current, Unquoted) => Some(if current.None? then words else words + [current.value])
    case _ => None
  }

  lemma {:induction false} LexConcat(lx: Lexer, a: string, b: string)
    ensures Lex(lx, a + b) == Lex(Lex(lx, a), b)
    decreases |a|
  {
    if a == "" {
      assert a + b == b;
    } else {
      assert (a + b)[1..] == a[1..] + b;
      LexConcat(LexStep(lx, a[0]), a[1..], b);
    }
  }

  // ---------------------------------------------------------------------
  // Quoting
  // ---------------------------------------------------------------------

  /** strings.ReplaceAll(s, "'", `'\''`). */
  function EscapeQuotes(s: string): string {
    if s == "" then "" else (if s[0] == '\'' then "'\\''" else [s[0]]) + EscapeQuotes(s[1..])
  }

  function ShellQuote(s: string): string {
    "'" + EscapeQuotes(s) + "'"
  }

  lemma LexEscapedQuote(words: seq<string>, w: string)
    ensures Lex(Lexer(words, Some(w), SingleQuoted), "'\\''") == Lexer(words, Some(w + "'"), SingleQuoted)
  {
    var l1 := Lexer(words, Some(w), Unquoted);
    var l2 := Lexer(words, Some(w), Escaped);
    var l3 := Lexer(words, Some(w + "'"), Unquoted);
    assert Lex(l3, "'") == Lex(Lexer(words, Some(w + "'"), SingleQuoted), "");
    assert Lex(l2, "''") == Lex(l3, "'") by { assert "''"[1..] == "'"; }
    assert Lex(l1, "\\''") == Lex(l2, "''") by { assert "\\''"[1..] == "''"; }
    assert "'\\''"[1..] == "\\''";
  }

  lemma {:induction false} LexQuotedBody(words: seq<string>, w: string, s: string)
    ensures Lex(Lexer(words, Some(w), SingleQuoted), EscapeQuotes(s)) == Lexer(words, Some(w + s), SingleQuoted)
    decreases |s|
  {
    if s == "" {
      assert w + s == w;
    } else {
      var head := if s[0] == '\'' then "'\\''" else [s[0]];
      LexConcat(Lexer(words, Some(w), SingleQuoted), head, EscapeQuotes(s[1..]));
      if s[0] == '\'' {
        LexEscapedQuote(words, w);
      } else {
        assert Lex(Lexer(words, Some(w), SingleQuoted), [s[0]])
            == Lex(Lexer(words, Some(w + [s[0]]), SingleQuoted), "");
      }
      LexQuotedBody(words, w + [s[0]], s[1..]);
      assert w + [s[0]] + s[1..] == w + s;
    }
  }

  /** Read where no word is in progress, a quoted string is exactly one word. */
  lemma LexQuoted(words: seq<string>, s: string)
    ensures Lex(Lexer(words, None, Unquoted), ShellQuote(s)) == Lexer(words, Some(s), Unquoted)
  {
    var l0, l1 := Lexer(words, None, Unquoted), Lexer(words, Some(""), SingleQuoted);
    assert Lex(l0, "'") == Lex(l1, "") == l1;
    LexConcat(l0, "'", EscapeQuotes(s));
    LexQuotedBody(words, "", s);
    assert "" + s == s;
    LexConcat(l0, "'" + EscapeQuotes(s), "'");
    var l2 := Lexer(words, Some(s), SingleQuoted);
    assert Lex(l2, "'") == Lex(Lexer(words, Some(s), Unquoted), "");
  }

  /** Shell quoting round trip: every string comes back as the single word it was. */
  lemma QuoteRoundTrip(s: string)
    ensures ShellWords(ShellQuote(s)) == Some([s])
  {
    LexQuoted([], s);
    assert [] + [s] == [s];
  }

  /** Appending a quoted argument to a command adds exactly that argument. */
  lemma QuotedArgument(cmd: string, s: string)
    requires ShellWords(cmd).Some?
    ensures ShellWords(cmd + " " + ShellQuote(s)) == Some(ShellWords(cmd).value + [s])
  {
    var lx := Lex(START, cmd);
    LexConcat(START, cmd, " ");
    assert Lex(lx, " ") == Lex(LexStep(lx, ' '), "");
    LexConcat(START, cmd + " ", ShellQuote(s));
    LexQuoted(ShellWords(cmd).value, s);
  }

  function MoveCommand(src: string, dst: string): string {
    "mv -f --" + " " + ShellQuote(src) + " " + ShellQuote(dst)
  }

  function RemoveCommand(path: string): string {
    "rm -f --" + " " + ShellQuote(path)
  }

  function CheckCommand(checkzone: string, zone: string, path: string): string {
    checkzone + " " + ShellQuote(zone) + " " + ShellQuote(path)
  }

  lemma {:induction false} LexPlainWord(words: seq<string>, w: string, s: string)
    requires forall i :: 0 <= i < |s| ==> !IsBlank(s[i]) && s[i] != '\'' && s[i] != '\\' && !IsSpecial(s[i])
    ensures Lex(Lexer(words, Some(w), Unquoted), s) == Lexer(words, Some(w + s), Unquoted)
    decreases |s|
  {
    if s == "" {
      assert w + s == w;
    } else {
      LexPlainWord(words, w + [s[0]], s[1..]);
      assert w + [s[0]] + s[1..] == w + s;
    }
  }

  /** A plain word after a command that parses. */
  lemma PlainArgument(cmd: string, s: string)
    requires ShellWords(cmd).Some? && s != ""
    requires forall i :: 0 <= i < |s| ==> !IsBlank(s[i]) && s[i] != '\'' && s[i] != '\\' && !IsSpecial(s[i])
    ensures ShellWords(cmd + " " + s) == Some(ShellWords(cmd).value + [s])
  {
    var lx, ws := Lex(START, cmd), ShellWords(cmd).value;
    LexConcat(START, cmd, " ");
    assert Lex(lx, " ") == Lex(LexStep(lx, ' '), "");
    LexConcat(START, cmd + " ", s);
    LexPlainWord(ws, [s[0]], s[1..]);
    assert [s[0]] + s[1..] == s;
    assert "" + [s[0]] == [s[0]];
  }

  /** A first plain word is read as it stands. */
  lemma FirstWord(s: string)
    requires s != ""
    requires forall i :: 0 <= i < |s| ==> !IsBlank(s[i]) && s[i] != '\'' && s[i] != '\\' && !IsSpecial(s[i])
    ensures ShellWords(s) == Some([s])
  {
    LexPlainWord([], [s[0]], s[1..]);
    assert [s[0]] + s[1..] == s;
    assert "" + [s[0]] == [s[0]];
    assert [] + [s] == [s];
  }

  lemma FixedWords(cmd: string)
    requires cmd == "mv" || cmd == "rm"
    ensures ShellWords(cmd + " " + "-f" + " " + "--") == Some([cmd, "-f", "--"])
  {
    FirstWord(cmd);
    hide ShellWords;
    PlainArgument(cmd, "-f");
    PlainArgument(cmd + " " + "-f", "--");
    assert [cmd] + ["-f"] + ["--"] == [cmd, "-f", "--"];
  }

  /** The move and remove command lines mean exactly the intended argument lists, for all paths. */
  lemma CommandsParse(src: string, dst: string)
    ensures ShellWords(MoveCommand(src, dst)) == Some(["mv", "-f", "--", src, dst])
    ensures ShellWords(RemoveCommand(src)) == Some(["rm", "-f", "--", src])
  {
    hide ShellWords, ShellQuote;
    FixedWords("mv");
    FixedWords("rm");
    assert "mv" + " " + "-f" + " " + "--" == "mv -f --" && "rm" + " " + "-f" + " " + "--" == "rm -f --";
    QuotedArgument("mv -f --", src);
    QuotedArgument("mv -f --" + " " + ShellQuote(src), dst);
    QuotedArgument("rm -f --", src);
    assert ["mv", "-f", "--"] + [src] + [dst] == ["mv", "-f", "--", src, dst];
    assert ["rm", "-f", "--"] + [src] == ["rm", "-f", "--", src];
  }

  /** The check command line adds the zone and the path to the configured command's words. */
  lemma CheckCommandParses(checkzone: string, zone: string, path: string)
    requires ShellWords(checkzone).Some?
    ensures ShellWords(CheckCommand(checkzone, zone, path)) == Some(ShellWords(checkzone).value + [zone, path])
  {
    hide ShellWords, ShellQuote;
    QuotedArgument(checkzone, zone);
    QuotedArgument(checkzone + " " + ShellQuote(zone), path);
    var ws := ShellWords(checkzone).value;
    assert ws + [zone] + [path] == ws + [zone, path];
  }

  // ---------------------------------------------------------------------
  // Paths
  // ---------------------------------------------------------------------

  /** The last element of a path: what follows its last slash. Equal to path.Base for
      paths that do not end in a slash, such as <zone>.zone. */
  function BaseName(p: string): string {
    if '/' in p then BaseName(p[1..]) else p
  }

  /** path.Join of a directory already in clean form with a single path element. */
  function JoinDir(dir: string, element: string): string {
    if dir == "" || dir == "." then element
    else if dir == "/" then "/" + element
    else dir + "/" + element
  }

  function ZoneFile(zone: string): string {
    zone + ".zone"
  }

  function FinalPath(dir: string, file: string): string {
    JoinDir(dir, BaseName(file))
  }

  function TempName(file: string, suffix: string): string {
    ".mrdns-" + BaseName(file) + "-" + suffix + ".tmp"
  }

  function TempPath(dir: string, file: string, suffix: string): string {
    JoinDir(dir, TempName(file, suffix))
  }

  lemma JoinDirShape(dir: string, element: string)
    ensures exists pre :: JoinDir(dir, element) == pre + element && (pre == "" || pre[|pre| - 1] == '/')
  {
    if dir == "" || dir == "." {
      assert JoinDir(dir, element) == "" + element;
    } else if dir == "/" {
      assert JoinDir(dir, element) == "/" + element;
    } else {
      assert JoinDir(dir, element) == (dir + "/") + element;
    }
  }

  lemma {:induction false} BaseAfterSlash(pre: string, element: string)
    requires '/' !in element && (pre == "" || pre[|pre| - 1] == '/')
    ensures BaseName(pre + element) == element
    decreases |pre|
  {
    if pre == "" {
      assert pre + element == element;
    } else {
      var p := pre + element;
      assert p[|pre| - 1] == '/';
      assert p[1..] == pre[1..] + element;
      BaseAfterSlash(pre[1..], element);
    }
  }

  lemma {:induction false} LastOfBase(p: string)
    requires p != "" && p[|p| - 1] != '/'
    ensures var b := BaseName(p); b != "" && b[|b| - 1] == p[|p| - 1]
  {
    if '/' in p {
      assert |p| > 1;
      LastOfBase(p[1..]);
    }
  }

  lemma BaseOfJoin(dir: string, element: string)
    requires '/' !in element
    ensures BaseName(JoinDir(dir, element)) == element
  {
    JoinDirShape(dir, element);
    var pre :| JoinDir(dir, element) == pre + element && (pre == "" || pre[|pre| - 1] == '/');
    BaseAfterSlash(pre, element);
  }

  lemma LastOfJoin(dir: string, element: string)
    requires element != ""
    ensures var p := JoinDir(dir, element); p != "" && p[|p| - 1] == element[|element| - 1]
  {
  }

  /** A staged temporary file never has the path of any zone's live file, in any directory. */
  lemma TempIsNeverLive(dir: string, zone: string, suffix: string, dir': string, zone': string)
    ensures TempPath(dir, ZoneFile(zone), suffix) != FinalPath(dir', ZoneFile(zone'))
  {
    var t := TempName(ZoneFile(zone), suffix);
    LastOfJoin(dir, t);
    assert t[|t| - 1] == 'p';
    var file := ZoneFile(zone');
    var b := BaseName(file);
    LastOfBase(file);
    LastOfJoin(dir', b);
  }

  lemma TempHoldsSuffix(dir: string, file: string, suffix: string)
    ensures var p := TempPath(dir, file, suffix);
            |p| >= |suffix| + 4 && p[|p| - 4 - |suffix|..|p| - 4] == suffix
  {
    JoinDirShape(dir, TempName(file, suffix));
  }

  /** Temporary paths of one zone with different suffixes of equal length differ, whatever
      the directories. */
  lemma TempsDiffer(dir: string, dir': string, file: string, s: string, s': string)
    requires |s| == |s'| && s != s'
    ensures TempPath(dir, file, s) != TempPath(dir', file, s')
  {
    TempHoldsSuffix(dir, file, s);
    TempHoldsSuffix(dir', file, s');
  }

  /** Both files of a deploy lie in the configured directory, each under a name of its own; a
      zone without a slash in its name has its file named after it. */
  lemma FilesInDirectory(dir: string, zone: string, suffix: string)
    requires dir != "" && dir != "." && dir != "/"
    ensures FinalPath(dir, ZoneFile(zone)) == dir + "/" + BaseName(ZoneFile(zone))
    ensures TempPath(dir, ZoneFile(zone), suffix)
         == dir + "/" + ".mrdns-" + BaseName(ZoneFile(zone)) + "-" + suffix + ".tmp"
    ensures '/' !in BaseName(ZoneFile(zone)) && ('/' !in zone ==> BaseName(ZoneFile(zone)) == zone + ".zone")
  {
    BaseHasNoSlash(ZoneFile(zone));
    assert ".mrdns-" + BaseName(ZoneFile(zone)) + "-" + suffix + ".tmp" == TempName(ZoneFile(zone), suffix);
    assert dir + "/" + TempName(ZoneFile(zone), suffix)
        == dir + "/" + ".mrdns-" + BaseName(ZoneFile(zone)) + "-" + suffix + ".tmp";
  }

  // ---------------------------------------------------------------------
  // Zones that share a live file
  // ---------------------------------------------------------------------

  /** What a zone's live file is called, in whatever directory it lies. */
  function LiveName(zone: string): string {
    BaseName(ZoneFile(zone))
  }

  lemma {:induction false} BaseConcat(p: string, ext: string)
    requires '/' !in ext
    ensures BaseName(p + ext) == BaseName(p) + ext
  {
    if '/' in p {
      assert (p + ext)[1..] == p[1..] + ext;
      BaseConcat(p[1..], ext);
    }
  }

  lemma {:induction false} BaseHasNoSlash(p: string)
    ensures '/' !in BaseName(p)
  {
    if '/' in p { BaseHasNoSlash(p[1..]); }
  }

  /** Two zones' live files have the same name exactly when the zone names agree after their
      last slash. */
  lemma SharedNameExactly(zone: string, zone': string)
    ensures LiveName(zone) == LiveName(zone') <==> BaseName(zone) == BaseName(zone')
    ensures '/' !in LiveName(zone)
  {
    BaseHasNoSlash(ZoneFile(zone));
    BaseConcat(zone, ".zone");
    BaseConcat(zone', ".zone");
    var b, b' := BaseName(zone), BaseName(zone');
    assert (b + ".zone")[..|b|] == b && (b' + ".zone")[..|b'|] == b';
    assert |b + ".zone"| == |b| + 5 && |b' + ".zone"| == |b'| + 5;
  }

  /** In one directory two zones have one live file exactly when its name is the same; with
      different names their live paths differ in any directories. */
  lemma LivePathsExactly(dir: string, dir': string, zone: string, zone': string)
    ensures FinalPath(dir, ZoneFile(zone)) == FinalPath(dir, ZoneFile(zone')) <==> LiveName(zone) == LiveName(zone')
    ensures LiveName(zone) != LiveName(zone') ==> FinalPath(dir, ZoneFile(zone)) != FinalPath(dir', ZoneFile(zone'))
  {
    SharedNameExactly(zone, zone');
    SharedNameExactly(zone', zone);
    hide JoinDir;
    BaseOfJoin(dir, LiveName(zone));
    BaseOfJoin(dir, LiveName(zone'));
    BaseOfJoin(dir', LiveName(zone'));
  }

  /** A zone and any zone named with something and a slash before it share their live file. */
  lemma SlashSharesLive(pre: string, zone: string)
    requires '/' !in zone
    ensures LiveName(pre + "/" + zone) == LiveName(zone) && pre + "/" + zone != zone
  {
    BaseAfterSlash(pre + "/", zone);
    assert BaseName(zone) == zone;
    SharedNameExactly(pre + "/" + zone, zone);
    assert |pre + "/" + zone| > |zone|;
  }
}
