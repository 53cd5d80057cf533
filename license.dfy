/** License archive handling of a repository descriptor. The archive
    `license.tar.gz` is listed (`tar -t`) and extracted (`tar -x -O`) by an
    external program whose output is read line by line, each line with its
    trailing newline, until the first empty line. Here that output is a
    sequence of lines; running the program is not part of this model. */
module RepoLicense {
  import opened RepoText

  /** A locale code; the empty code is the locale without a code (`noCode`). */
  type Locale = string

  const NoCode: Locale := ""
  const LicensePrefix: string := "license."
  const TxtSuffix: string := ".txt\n"
  const NoAcceptanceFile: string := "no-acceptance-needed\n"
  const LicenseFallback: string := "license.txt"

  /** The locale a listed archive member stands for, if it is a license text. */
  function LocaleOfLine(line: string): (r: Option<Locale>)
    ensures r.Some? <==> StartsWith(line, LicensePrefix) && EndsWith(line, TxtSuffix)
    ensures r.Some? && r.value != NoCode ==> line == LicensePrefix + r.value + TxtSuffix
  {
    if StartsWith(line, LicensePrefix) && EndsWith(line, TxtSuffix) then
      if |line| <= |LicensePrefix| + |TxtSuffix| then Some(NoCode)
      else Some(line[|LicensePrefix|..|line| - |TxtSuffix|])
    else None
  }

  /** Locales of the license texts among some listed lines. */
  function LocalesIn(lines: seq<string>): set<Locale> {
    set l | l in lines && LocaleOfLine(l).Some? :: LocaleOfLine(l).value
  }

  lemma LocalesInAppend(lines: seq<string>, line: string)
    ensures LocalesIn(lines + [line]) ==
      LocalesIn(lines) + if LocaleOfLine(line).Some? then {LocaleOfLine(line).value} else {}
  {
    var a, b := LocalesIn(lines + [line]), LocalesIn(lines);
    forall l | l in a ensures l in b || (LocaleOfLine(line).Some? && l == LocaleOfLine(line).value) {
      var x :| x in lines + [line] && LocaleOfLine(x).Some? && LocaleOfLine(x).value == l;
      if x != line { assert x in lines; }
    }
    forall l | l in b ensures l in a {
      var x :| x in lines && LocaleOfLine(x).Some? && LocaleOfLine(x).value == l;
      assert x in lines + [line];
    }
    if LocaleOfLine(line).Some? {
      assert line in lines + [line];
    }
  }

  /** Name of the archive member holding the license text of a locale. */
  function LicenseFileName(loc: Locale): (name: string)
    ensures loc == NoCode ==> name == LicenseFallback
    ensures loc != NoCode ==> name == LicensePrefix + loc + ".txt"
    ensures loc != NoCode ==> |name| > |LicenseFallback| && StartsWith(name, LicensePrefix) && EndsWith(name, ".txt")
  {
    if loc == NoCode then LicenseFallback else LicensePrefix + loc + ".txt"
  }

  /** Listing the member a locale's text is stored under yields that locale. */
  lemma LicenseFileRoundTrip(loc: Locale)
    ensures LocaleOfLine(LicenseFileName(loc) + "\n") == Some(loc)
  {
    var line := LicenseFileName(loc) + "\n";
    if loc == NoCode {
      assert line == "license.txt\n";
      assert line[..8] == LicensePrefix;
      assert line[7..] == TxtSuffix;
    } else {
      assert line == LicensePrefix + loc + TxtSuffix;
      assert line[..8] == LicensePrefix;
      assert line[|line| - 5..] == TxtSuffix;
      assert line[8..|line| - 5] == loc;
    }
  }

  /** Conversely, a listed line that yields a locale with a code is exactly
      that locale's member name; the locale without a code comes only from
      `license.txt` (or the degenerate `license..txt`). */
  lemma LocaleOfLineInverse(line: string)
    requires LocaleOfLine(line).Some?
    ensures var loc := LocaleOfLine(line).value;
      if loc == NoCode then line == "license.txt\n" || line == "license..txt\n"
      else line == LicenseFileName(loc) + "\n"
  {
    var loc := LocaleOfLine(line).value;
    assert line[..8] == LicensePrefix;
    assert line[|line| - 5..] == TxtSuffix;
    if |line| <= 13 {
      if |line| == 13 {
        assert line == line[..8] + line[8..];
        assert line[8..] == TxtSuffix;
      } else {
        assert line[|line| - 4] == TxtSuffix[1] == 't';
        assert line[0] == 'l' && line[1] == 'i' && line[2] == 'c' && line[3] == 'e';
        assert line[4] == 'n' && line[5] == 's' && line[6] == 'e' && line[7] == '.';
        assert |line| == 12;
        assert line == line[..8] + line[8..];
        assert line[8..] == TxtSuffix[1..];
      }
    } else {
      assert line == line[..8] + line[8..|line| - 5] + line[|line| - 5..];
    }
  }

  /** The locale whose text `getLicense` extracts: the best match, unless that
      is the locale without a code and the archive has no such text, in which
      case the first available locale (`first`) is used. */
  function ChosenLocale(available: set<Locale>, best: Locale, first: Locale): (loc: Locale)
    requires first in available
    ensures best != NoCode ==> loc == best
    ensures best == NoCode && NoCode in available ==> loc == NoCode
    ensures best == NoCode && NoCode !in available ==> loc == first
    ensures best in available || best == NoCode ==> loc in available
  {
    if best == NoCode && NoCode !in available then first else best
  }

  /** The text `getLicense` returns for a locale, given the line output of
      extracting one archive member. */
  function LicenseText(extract: string -> seq<string>, loc: Locale): string {
    Concat(UntilEmpty(extract(LicenseFileName(loc))))
  }

  /** Reads the `tar -t` listing and collects the locales of its license texts. */
  method CollectLicenseLocales(lines: seq<string>) returns (locales: set<Locale>)
    ensures locales == LocalesIn(UntilEmpty(lines))
  {
    locales := {};
    var i := 0;
    while i < |lines| && lines[i] != ""
      invariant 0 <= i <= |lines|
      invariant "" !in lines[..i]
      invariant locales == LocalesIn(lines[..i])
    {
      var line := lines[i];
      LocalesInAppend(lines[..i], line);
      var loc := LocaleOfLine(line);
      if loc.Some? {
        locales := locales + {loc.value};
      }
      assert lines[..i + 1] == lines[..i] + [line];
      i := i + 1;
    }
    UntilEmptyUnique(lines, i);
  }

  /** Reads the `tar -t` listing; acceptance is needed unless the archive
      lists the `no-acceptance-needed` marker. */
  method AcceptanceNeeded(lines: seq<string>) returns (accept: bool)
    ensures accept <==> NoAcceptanceFile !in UntilEmpty(lines)
  {
    accept := true;
    var i := 0;
    while i < |lines| && lines[i] != ""
      invariant 0 <= i <= |lines|
      invariant "" !in lines[..i]
      invariant accept <==> NoAcceptanceFile !in lines[..i]
    {
      if lines[i] == NoAcceptanceFile {
        accept := false;
      }
      assert lines[..i + 1] == lines[..i] + [lines[i]];
      i := i + 1;
    }
    UntilEmptyUnique(lines, i);
  }

  /** Reads the output of extracting one member and joins its lines. */
  method CollectText(lines: seq<string>) returns (text: string)
    ensures text == Concat(UntilEmpty(lines))
  {
    text := "";
    var i := 0;
    while i < |lines| && lines[i] != ""
      invariant 0 <= i <= |lines|
      invariant "" !in lines[..i]
      invariant text == Concat(lines[..i])
    {
      assert lines[..i + 1][..i] == lines[..i];
      text := text + lines[i];
      i := i + 1;
    }
    UntilEmptyUnique(lines, i);
  }
}
