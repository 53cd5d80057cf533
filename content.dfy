/** Content keywords of a repository: the probe `hasContent` runs once, when
    the keyword cache is empty, over the repository's master index.
    A `repodata/repomd.xml` index contributes the text of its depth-2
    `content` nodes; a SUSE `content` file contributes the words after
    `REPOKEYWORDS` on its keyword lines, read up to the `META ` section. */
module RepoContent {
  import opened RepoText

  const RepoKeywordsTag: string := "REPOKEYWORDS"
  const MetaTag: string := "META "

  /** What reading the master index found; the file reading itself is not
      part of this model. */
  datatype ContentProbe =
    | RepoMdIndex(contentNodes: seq<string>)  // repomd.xml exists: texts of its `content` nodes
    | ContentFile(lines: seq<string>)         // only the `content` file exists: its lines
    | NoIndex                                 // neither file exists

  /** Keywords one `REPOKEYWORDS` line contributes: the words after the first,
      provided there are some and the first word is exactly 12 characters. */
  function LineKeywords(line: string): set<string> {
    var ws := Words(line);
    if |ws| > 1 && |ws[0]| == |RepoKeywordsTag| then set w | w in ws[1..] else {}
  }

  /** The line callback's verdict on one line: the keywords it inserts and
      whether the scan continues. */
  function ScanLine(line: string): (r: (set<string>, bool))
    ensures StartsWith(line, RepoKeywordsTag) ==> r.0 == LineKeywords(line)
    ensures !StartsWith(line, RepoKeywordsTag) ==> r.0 == {}
    ensures r.1 <==> !StartsWith(line, MetaTag)
  {
    TagsExclusive(line);
    if StartsWith(line, RepoKeywordsTag) then (LineKeywords(line), true)
    else ({}, !StartsWith(line, MetaTag))
  }

  /** Keywords the whole scan inserts. */
  function ScanKeywords(lines: seq<string>): set<string> {
    if lines == [] then {}
    else
      var (ks, more) := ScanLine(lines[0]);
      if more then ks + ScanKeywords(lines[1..]) else ks
  }

  /** Index of the first line that starts the `META ` section, or the number of lines. */
  function StopIndex(lines: seq<string>): (n: nat)
    ensures n <= |lines|
    ensures forall i :: 0 <= i < n ==> !StartsWith(lines[i], MetaTag)
    ensures n < |lines| ==> StartsWith(lines[n], MetaTag)
  {
    if lines == [] || StartsWith(lines[0], MetaTag) then 0 else 1 + StopIndex(lines[1..])
  }

  lemma TagsExclusive(line: string)
    ensures !(StartsWith(line, RepoKeywordsTag) && StartsWith(line, MetaTag))
  {
    if StartsWith(line, RepoKeywordsTag) {
      assert line[0] == RepoKeywordsTag[0] == 'R';
    }
  }

  /** A keyword line inserts exactly the words after `REPOKEYWORDS`, when the
      first word is that tag alone and at least one word follows it. */
  lemma KeywordLine(line: string)
    requires StartsWith(line, RepoKeywordsTag)
    ensures var ws := Words(line);
      LineKeywords(line) == if |ws| > 1 && ws[0] == RepoKeywordsTag then set w | w in ws[1..] else {}
  {
    FirstWordStartsWithTag(line, RepoKeywordsTag);
  }

  /** The scan collects a keyword exactly when it is a keyword of some
      `REPOKEYWORDS` line before the `META ` section. */
  lemma {:induction false} ScanKeywordsSpec(lines: seq<string>, k: string)
    ensures k in ScanKeywords(lines) <==>
      exists i :: 0 <= i < StopIndex(lines) && StartsWith(lines[i], RepoKeywordsTag) && k in LineKeywords(lines[i])
  {
    if lines != [] {
      TagsExclusive(lines[0]);
      ScanKeywordsSpec(lines[1..], k);
      if !StartsWith(lines[0], MetaTag) {
        assert StopIndex(lines) == 1 + StopIndex(lines[1..]);
        if k in ScanKeywords(lines) && k !in LineKeywords(lines[0]) {
          var i :| 0 <= i < StopIndex(lines[1..]) && StartsWith(lines[1..][i], RepoKeywordsTag)
                   && k in LineKeywords(lines[1..][i]);
          assert lines[i + 1] == lines[1..][i];
        }
        if exists i :: 0 <= i < StopIndex(lines) && StartsWith(lines[i], RepoKeywordsTag) && k in LineKeywords(lines[i]) {
          var i :| 0 <= i < StopIndex(lines) && StartsWith(lines[i], RepoKeywordsTag) && k in LineKeywords(lines[i]);
          if i > 0 {
            assert lines[1..][i - 1] == lines[i];
          }
        }
      }
    }
  }

  /** Lines after the first `META ` line never contribute. */
  lemma {:induction false} ScanStopsAtMeta(lines: seq<string>, rest: seq<string>)
    requires lines != [] && StartsWith(lines[|lines| - 1], MetaTag)
    ensures ScanKeywords(lines + rest) == ScanKeywords(lines)
  {
    TagsExclusive(lines[0]);
    if |lines| > 1 {
      assert (lines + rest)[1..] == lines[1..] + rest;
      ScanStopsAtMeta(lines[1..], rest);
    }
  }

  /** The line-by-line reader of the `content` file: it hands each line to
      the callback and stops as soon as the callback returns false. */
  method ScanContentLines(lines: seq<string>) returns (keywords: set<string>)
    ensures keywords == ScanKeywords(lines)
  {
    keywords := {};
    var i := 0;
    var more := true;
    while more && i < |lines|
      invariant 0 <= i <= |lines|
      invariant more ==> keywords + ScanKeywords(lines[i..]) == ScanKeywords(lines)
      invariant !more ==> keywords == ScanKeywords(lines)
    {
      var (ks, cont) := ScanLine(lines[i]);
      assert lines[i..][1..] == lines[i + 1..];
      keywords := keywords + ks;
      more := cont;
      i := i + 1;
    }
  }

  /** Keywords a successful probe inserts, the empty-string marker included;
      None when neither index file exists. */
  function ProbeKeywords(probe: ContentProbe): (r: Option<set<string>>)
    ensures r.Some? <==> !probe.NoIndex?
    ensures r.Some? ==> "" in r.value
  {
    match probe
    case RepoMdIndex(nodes) => Some((set c | c in nodes) + {""})
    case ContentFile(lines) => Some(ScanKeywords(lines) + {""})
    case NoIndex => None
  }
}
