/** The repository descriptor `RepoInfo`: repository settings with their
    defaulting rules, the lazily filled base-URL and content-keyword caches,
    the license archive queries and the `.repo` (INI) serialisation.
    Everything a file, a program or the network would supply is a parameter:
    the mirror list's URLs, the master index, the archive listing and the
    extracted license text. */
module Repository {
  import opened RepoText
  import opened RepoUrls
  import opened RepoContent
  import opened RepoLicense

  newtype uint32 = x: int | 0 <= x < 0x1_0000_0000

  /** The priority a descriptor has until one is set; setting 0 restores it. */
  const DefaultPriority: uint32 := 99

  /** A three-valued flag: not set yet, or set to a value. */
  datatype TriBool = Indeterminate | Known(value: bool)

  /** Repository metadata formats; NONE means not yet known. */
  datatype RepoType = NONE | RPMMD | YAST2 | RPMPLAINDIR

  function TypeName(t: RepoType): string {
    match t
    case NONE => "NONE"
    case RPMMD => "rpm-md"
    case YAST2 => "yast2"
    case RPMPLAINDIR => "plaindir"
  }

  /** Everything a descriptor holds, the caches included. */
  datatype Settings = Settings(
    gpgcheck: TriBool,
    keeppackages: TriBool,
    gpgkeyUrl: Url,
    repoType: RepoType,
    path: string,
    service: string,
    targetDistro: string,
    metadataPath: string,
    packagesPath: string,
    priority: uint32,
    emptyBaseUrls: bool,      // the base URLs were filled from the mirror list
    mirrorListUrl: Url,
    baseUrls: seq<Url>,       // the ordered URL set
    keywords: set<string>)    // content keywords; "" marks a completed probe

  // ---------------------------------------------------------------------
  // Derived values

  /** Signature checking is on unless it was explicitly switched off. */
  function GpgCheck(s: Settings): (on: bool)
    ensures s.gpgcheck.Indeterminate? ==> on
    ensures s.gpgcheck.Known? ==> on == s.gpgcheck.value
  {
    if s.gpgcheck.Indeterminate? then true else s.gpgcheck.value
  }

  /** Downloaded packages are kept only when that was explicitly asked for. */
  function KeepPackages(s: Settings): (keep: bool)
    ensures s.keeppackages.Indeterminate? ==> !keep
    ensures s.keeppackages.Known? ==> keep == s.keeppackages.value
  {
    if s.keeppackages.Indeterminate? then false else s.keeppackages.value
  }

  /** Whether the base URLs are the descriptor's own (and so are written out):
      not filled from the mirror list, and not empty. */
  function BaseUrlSet(s: Settings): (dump: bool)
    ensures dump ==> s.baseUrls != []
    ensures s.emptyBaseUrls ==> !dump
    ensures !s.emptyBaseUrls && s.baseUrls != [] ==> dump
  {
    !s.emptyBaseUrls && s.baseUrls != []
  }

  /** Lazy initialisation of the type by a probe. */
  function ProbedType(current: RepoType, probed: RepoType): (t: RepoType)
    ensures current != NONE ==> t == current
    ensures current == NONE ==> t == probed
  {
    if current == NONE && probed != NONE then probed else current
  }

  /** A second probe never overrides the type the first one set. */
  lemma ProbeOnce(current: RepoType, first: RepoType, second: RepoType)
    requires first != NONE
    ensures ProbedType(ProbedType(current, first), second) == ProbedType(current, first)
    ensures ProbedType(ProbedType(current, first), second) != NONE
  {
  }

  /** Joins two path components (normalisation is not part of this model). */
  function JoinPath(a: string, b: string): (p: string)
    ensures p == "" <==> a == "" && b == ""
  {
    if a == "" then b else if b == "" then a else a + "/" + b
  }

  /** Location of the license archive; empty when there is no metadata path. */
  function LicenseTgz(s: Settings): (p: string)
    ensures p == "" <==> s.metadataPath == ""
  {
    if s.metadataPath == "" then "" else JoinPath(JoinPath(s.metadataPath, s.path), "license.tar.gz")
  }

  /** `archive` is the archive's `tar -t` listing, None when no such file exists. */
  function HasLicense(s: Settings, archive: Option<seq<string>>): (has: bool)
    ensures has <==> s.metadataPath != "" && archive.Some?
  {
    LicenseTgz(s) != "" && archive.Some?
  }

  /** Locales the license archive has texts for. */
  function LicenseLocales(s: Settings, archive: Option<seq<string>>): set<Locale> {
    if HasLicense(s, archive) then LocalesIn(UntilEmpty(archive.value)) else {}
  }

  // ---------------------------------------------------------------------
  // The `.repo` INI section: `key=value` entries and indented continuation
  // lines that carry further base URLs.

  datatype IniLine = Entry(key: string, value: string) | Continuation(value: string)

  /** As wide as `baseurl=`, so continuation URLs line up under the first. */
  const BaseUrlIndent: string := "        "

  function Render(l: IniLine): string {
    match l
    case Entry(k, v) => k + "=" + v
    case Continuation(v) => BaseUrlIndent + v
  }

  /** Each line followed by a newline. */
  function RenderAll(ls: seq<IniLine>): string {
    if ls == [] then "" else Render(ls[0]) + "\n" + RenderAll(ls[1..])
  }

  function ContinuationLines(urls: seq<Url>): seq<IniLine> {
    if urls == [] then [] else [Continuation(urls[0])] + ContinuationLines(urls[1..])
  }

  /** `baseurl=` with the first URL, every later URL on a continuation line. */
  function BaseUrlLines(urls: seq<Url>): seq<IniLine>
    requires urls != []
  {
    [Entry("baseurl", urls[0])] + ContinuationLines(urls[1..])
  }

  /** The entries after the base URLs in the order they are written, each
      with whether it is written: only when it has a value worth writing. */
  function Candidates(s: Settings): seq<(bool, IniLine)> {
    [ (s.path != "", Entry("path", s.path)),
      (s.mirrorListUrl != "", Entry("mirrorlist", s.mirrorListUrl)),
      (true, Entry("type", TypeName(s.repoType))),
      (s.priority != DefaultPriority, Entry("priority", Decimal(s.priority as nat))),
      (s.gpgcheck.Known?, Entry("gpgcheck", if GpgCheck(s) then "1" else "0")),
      (s.gpgkeyUrl != "", Entry("gpgkey", s.gpgkeyUrl)),
      (s.keeppackages.Known?, Entry("keeppackages", if KeepPackages(s) then "1" else "0")),
      (s.service != "", Entry("service", s.service)) ]
  }

  /** The line of an entry that is written only when `written` holds. */
  function OptLine(written: bool, l: IniLine): seq<IniLine> {
    if written then [l] else []
  }

  /** The candidates that are written, in order (appended one by one, as the
      dump writes them). */
  function Present(cs: seq<(bool, IniLine)>): seq<IniLine> {
    if cs == [] then [] else Present(cs[..|cs| - 1]) + OptLine(cs[|cs| - 1].0, cs[|cs| - 1].1)
  }

  function FixedLines(s: Settings): seq<IniLine> {
    Present(Candidates(s))
  }

  /** The lines `dumpAsIniOn` writes after the generic part of the section. */
  function IniLines(s: Settings): seq<IniLine> {
    (if BaseUrlSet(s) then BaseUrlLines(s.baseUrls) else []) + FixedLines(s)
  }

  // Reading a section back, entry by entry.

  /** Value of the first entry with a key. */
  function Lookup(ls: seq<IniLine>, key: string): Option<string> {
    if ls == [] then None
    else if ls[0].Entry? && ls[0].key == key then Some(ls[0].value)
    else Lookup(ls[1..], key)
  }

  /** Values of the continuation lines at the start of `ls`. */
  function Continuations(ls: seq<IniLine>): seq<Url> {
    if ls != [] && ls[0].Continuation? then [ls[0].value] + Continuations(ls[1..]) else []
  }

  /** The base URLs a section lists: the `baseurl` entry and its continuations. */
  function ReadBaseUrls(ls: seq<IniLine>): seq<Url> {
    if ls == [] then []
    else if ls[0].Entry? && ls[0].key == "baseurl" then [ls[0].value] + Continuations(ls[1..])
    else ReadBaseUrls(ls[1..])
  }

  lemma {:induction false} LookupAppend(a: seq<IniLine>, b: seq<IniLine>, key: string)
    ensures Lookup(a + b, key) == if Lookup(a, key).Some? then Lookup(a, key) else Lookup(b, key)
  {
    if a == [] {
      assert a + b == b;
    } else {
      assert (a + b)[1..] == a[1..] + b;
      LookupAppend(a[1..], b, key);
    }
  }

  lemma {:induction false} LookupContinuations(urls: seq<Url>, key: string)
    ensures Lookup(ContinuationLines(urls), key) == None
  {
    if urls != [] { LookupContinuations(urls[1..], key); }
  }

  lemma {:induction false} ContinuationsOf(urls: seq<Url>, rest: seq<IniLine>)
    requires rest == [] || rest[0].Entry?
    ensures Continuations(ContinuationLines(urls) + rest) == urls
  {
    if urls != [] {
      assert (ContinuationLines(urls) + rest)[1..] == ContinuationLines(urls[1..]) + rest;
      ContinuationsOf(urls[1..], rest);
    }
  }

  /** A key other than `baseurl` is found among the fixed entries. */
  lemma IniLookupFixed(s: Settings, key: string)
    requires key != "baseurl"
    ensures Lookup(IniLines(s), key) == Lookup(FixedLines(s), key)
  {
    if BaseUrlSet(s) {
      var urls := s.baseUrls;
      LookupAppend(BaseUrlLines(urls), FixedLines(s), key);
      LookupAppend([Entry("baseurl", urls[0])], ContinuationLines(urls[1..]), key);
      LookupContinuations(urls[1..], key);
      assert [Entry("baseurl", urls[0])][1..] == [];
    } else {
      assert IniLines(s) == FixedLines(s);
    }
  }

  /** Distinct entry keys: looking one up finds its candidate if written. */
  lemma {:induction false} LookupPresent(cs: seq<(bool, IniLine)>, j: nat, key: string)
    requires j < |cs|
    requires forall i :: 0 <= i < |cs| ==> cs[i].1.Entry?
    requires cs[j].1.key == key
    requires forall i :: 0 <= i < |cs| && i != j ==> cs[i].1.key != key
    ensures Lookup(Present(cs), key) == if cs[j].0 then Some(cs[j].1.value) else None
  {
    var n := |cs| - 1;
    LookupAppend(Present(cs[..n]), OptLine(cs[n].0, cs[n].1), key);
    if j == n {
      LookupAbsent(cs[..n], key);
    } else {
      LookupPresent(cs[..n], j, key);
    }
  }

  lemma {:induction false} LookupAbsent(cs: seq<(bool, IniLine)>, key: string)
    requires forall i :: 0 <= i < |cs| ==> cs[i].1.Entry? && cs[i].1.key != key
    ensures Lookup(Present(cs), key) == None
  {
    if cs != [] {
      var n := |cs| - 1;
      LookupAppend(Present(cs[..n]), OptLine(cs[n].0, cs[n].1), key);
      LookupAbsent(cs[..n], key);
    }
  }

  lemma CandidateKeys(s: Settings)
    ensures |Candidates(s)| == 8
    ensures forall i :: 0 <= i < 8 ==> Candidates(s)[i].1.Entry? && Candidates(s)[i].1.key != "baseurl"
    ensures forall i, j :: 0 <= i < j < 8 ==> Candidates(s)[i].1.key != Candidates(s)[j].1.key
  {
  }

  /** Looking a key up in a dump finds the candidate entry with that key. */
  lemma IniLookup(s: Settings, j: nat)
    requires j < 8
    ensures var c := Candidates(s)[j];
      Lookup(IniLines(s), c.1.key) == if c.0 then Some(c.1.value) else None
  {
    CandidateKeys(s);
    var key := Candidates(s)[j].1.key;
    IniLookupFixed(s, key);
    LookupPresent(Candidates(s), j, key);
  }

  /** `priority=` is written exactly when the priority is not the default,
      and it reads back as the priority. */
  lemma IniPriority(s: Settings)
    ensures Lookup(IniLines(s), "priority") ==
      if s.priority != DefaultPriority then Some(Decimal(s.priority as nat)) else None
    ensures Lookup(IniLines(s), "priority").Some? ==>
      ParseDecimal(Lookup(IniLines(s), "priority").value) == s.priority as nat
  {
    IniLookup(s, 3);
    DecimalRoundTrip(s.priority as nat);
  }

  /** `gpgcheck=` is written only when the flag was set, as 1 or 0. */
  lemma IniGpgCheck(s: Settings)
    ensures Lookup(IniLines(s), "gpgcheck") ==
      match s.gpgcheck
      case Indeterminate => None
      case Known(on) => Some(if on then "1" else "0")
  {
    IniLookup(s, 4);
  }

  /** `keeppackages=` is written only when the flag was set, as 1 or 0. */
  lemma IniKeepPackages(s: Settings)
    ensures Lookup(IniLines(s), "keeppackages") ==
      match s.keeppackages
      case Indeterminate => None
      case Known(keep) => Some(if keep then "1" else "0")
  {
    IniLookup(s, 6);
  }

  /** `path=` is written only for a non-empty path. */
  lemma IniPath(s: Settings)
    ensures Lookup(IniLines(s), "path") == if s.path != "" then Some(s.path) else None
  {
    IniLookup(s, 0);
  }

  lemma {:induction false} PresentEntries(cs: seq<(bool, IniLine)>)
    requires forall i :: 0 <= i < |cs| ==> cs[i].1.Entry? && cs[i].1.key != "baseurl"
    ensures forall l :: l in Present(cs) ==> l.Entry? && l.key != "baseurl"
  {
    if cs != [] { PresentEntries(cs[..|cs| - 1]); }
  }

  lemma {:induction false} ReadBaseUrlsNone(ls: seq<IniLine>)
    requires forall l :: l in ls ==> l.Entry? && l.key != "baseurl"
    ensures ReadBaseUrls(ls) == []
  {
    if ls != [] {
      assert ls[0] in ls;
      ReadBaseUrlsNone(ls[1..]);
    }
  }

  /** Reading the base URLs back from a dump gives the descriptor's own URLs,
      in order, and none when they came from the mirror list. */
  lemma IniBaseUrls(s: Settings)
    ensures ReadBaseUrls(IniLines(s)) == if BaseUrlSet(s) then s.baseUrls else []
  {
    var f := FixedLines(s);
    CandidateKeys(s);
    PresentEntries(Candidates(s));
    if BaseUrlSet(s) {
      var urls := s.baseUrls;
      var ls := IniLines(s);
      assert ls == [Entry("baseurl", urls[0])] + (ContinuationLines(urls[1..]) + f);
      assert ls[1..] == ContinuationLines(urls[1..]) + f;
      assert f == [] || f[0].Entry? by { if f != [] { assert f[0] in f; } }
      ContinuationsOf(urls[1..], f);
      assert urls == [urls[0]] + urls[1..];
    } else {
      assert IniLines(s) == f;
      ReadBaseUrlsNone(f);
    }
  }

  // Lemmas the dump method uses to follow its output line by line.

  lemma RenderAppend(ls: seq<IniLine>, l: IniLine)
    ensures RenderAll(ls + [l]) == RenderAll(ls) + Render(l) + "\n"
  {
    assert [l][1..] == [];
    var last := Render(l) + "\n";
    assert RenderAll([l]) == last;
    RenderAllConcat(ls, [l]);
    assert RenderAll(ls) + last == RenderAll(ls) + Render(l) + "\n";
  }

  /** The fixed lines, candidate by candidate. */
  lemma FixedLinesExpanded(s: Settings)
    ensures FixedLines(s) == []
      + OptLine(s.path != "", Entry("path", s.path))
      + OptLine(s.mirrorListUrl != "", Entry("mirrorlist", s.mirrorListUrl))
      + OptLine(true, Entry("type", TypeName(s.repoType)))
      + OptLine(s.priority != DefaultPriority, Entry("priority", Decimal(s.priority as nat)))
      + OptLine(s.gpgcheck.Known?, Entry("gpgcheck", if GpgCheck(s) then "1" else "0"))
      + OptLine(s.gpgkeyUrl != "", Entry("gpgkey", s.gpgkeyUrl))
      + OptLine(s.keeppackages.Known?, Entry("keeppackages", if KeepPackages(s) then "1" else "0"))
      + OptLine(s.service != "", Entry("service", s.service))
  {
    var cs := Candidates(s);
    Present8(cs);
  }

  /** The first four fixed entries: `path`, `mirrorlist`, `type`, `priority`. */
  function FixedHead(s: Settings): seq<IniLine> {
    [] + OptLine(s.path != "", Entry("path", s.path))
      + OptLine(s.mirrorListUrl != "", Entry("mirrorlist", s.mirrorListUrl))
      + OptLine(true, Entry("type", TypeName(s.repoType)))
      + OptLine(s.priority != DefaultPriority, Entry("priority", Decimal(s.priority as nat)))
  }

  /** The last four fixed entries: `gpgcheck`, `gpgkey`, `keeppackages`, `service`. */
  function FixedTail(s: Settings): seq<IniLine> {
    [] + OptLine(s.gpgcheck.Known?, Entry("gpgcheck", if GpgCheck(s) then "1" else "0"))
      + OptLine(s.gpgkeyUrl != "", Entry("gpgkey", s.gpgkeyUrl))
      + OptLine(s.keeppackages.Known?, Entry("keeppackages", if KeepPackages(s) then "1" else "0"))
      + OptLine(s.service != "", Entry("service", s.service))
  }

  lemma FixedLinesSplit(s: Settings)
    ensures FixedLines(s) == FixedHead(s) + FixedTail(s)
  {
    FixedLinesExpanded(s);
    var cs := Candidates(s);
    ConcatRegroup(OptLine(cs[0].0, cs[0].1), OptLine(cs[1].0, cs[1].1), OptLine(cs[2].0, cs[2].1),
                  OptLine(cs[3].0, cs[3].1), OptLine(cs[4].0, cs[4].1), OptLine(cs[5].0, cs[5].1),
                  OptLine(cs[6].0, cs[6].1), OptLine(cs[7].0, cs[7].1));
  }

  lemma ConcatRegroup(a: seq<IniLine>, b: seq<IniLine>, c: seq<IniLine>, d: seq<IniLine>,
                      e: seq<IniLine>, f: seq<IniLine>, g: seq<IniLine>, h: seq<IniLine>)
    ensures [] + a + b + c + d + e + f + g + h == ([] + a + b + c + d) + ([] + e + f + g + h)
  {
  }

  lemma Present8(cs: seq<(bool, IniLine)>)
    requires |cs| == 8
    ensures Present(cs) == [] + OptLine(cs[0].0, cs[0].1) + OptLine(cs[1].0, cs[1].1)
      + OptLine(cs[2].0, cs[2].1) + OptLine(cs[3].0, cs[3].1) + OptLine(cs[4].0, cs[4].1)
      + OptLine(cs[5].0, cs[5].1) + OptLine(cs[6].0, cs[6].1) + OptLine(cs[7].0, cs[7].1)
  {
    assert cs[..0] == [];
    Present4(cs, 0);
    Present4(cs, 4);
    assert cs[..8] == cs;
  }

  lemma Present4(cs: seq<(bool, IniLine)>, k: nat)
    requires k + 4 <= |cs|
    ensures Present(cs[..k + 4]) == Present(cs[..k]) + OptLine(cs[k].0, cs[k].1)
      + OptLine(cs[k + 1].0, cs[k + 1].1) + OptLine(cs[k + 2].0, cs[k + 2].1)
      + OptLine(cs[k + 3].0, cs[k + 3].1)
  {
    PresentStep(cs, k);
    PresentStep(cs, k + 1);
    PresentStep(cs, k + 2);
    PresentStep(cs, k + 3);
  }

  lemma PresentStep(cs: seq<(bool, IniLine)>, k: nat)
    requires k < |cs|
    ensures Present(cs[..k + 1]) == Present(cs[..k]) + OptLine(cs[k].0, cs[k].1)
  {
    assert cs[..k + 1][..k] == cs[..k];
  }

  /** One conditional write of the dump: `after` is `before` with the
      entry's line appended when it is written. */
  lemma EmitLine(lines: seq<IniLine>, written: bool, key: string, value: string,
                 tag: string, before: string, after: string)
    requires tag == key + "="
    requires before == RenderAll(lines)
    requires after == if written then before + tag + value + "\n" else before
    ensures after == RenderAll(lines + OptLine(written, Entry(key, value)))
  {
    if written {
      var line := Entry(key, value);
      assert OptLine(written, line) == [line];
      assert Render(line) == tag + value;
      RenderAppend(lines, line);
      assert before + tag + value == before + Render(line);
    } else {
      assert lines + [] == lines;
    }
  }

  lemma {:induction false} RenderAllConcat(a: seq<IniLine>, b: seq<IniLine>)
    ensures RenderAll(a + b) == RenderAll(a) + RenderAll(b)
  {
    if a == [] {
      assert a + b == b;
    } else {
      assert (a + b)[1..] == a[1..] + b;
      RenderAllConcat(a[1..], b);
    }
  }

  lemma BaseUrlFirst(urls: seq<Url>)
    requires urls != []
    ensures RenderAll(BaseUrlLines(urls[..1])) == "baseurl=" + urls[0] + "\n"
  {
    assert urls[..1] == [urls[0]];
    assert BaseUrlLines(urls[..1]) == [Entry("baseurl", urls[0])];
  }

  lemma BaseUrlStep(urls: seq<Url>, i: nat)
    requires 0 < i < |urls|
    ensures RenderAll(BaseUrlLines(urls[..i + 1])) ==
      RenderAll(BaseUrlLines(urls[..i])) + BaseUrlIndent + urls[i] + "\n"
  {
    assert urls[..i + 1][1..] == urls[..i][1..] + [urls[i]];
    ContinuationLinesAppend(urls[..i][1..], urls[i]);
    assert BaseUrlLines(urls[..i + 1]) == BaseUrlLines(urls[..i]) + [Continuation(urls[i])];
    RenderAppend(BaseUrlLines(urls[..i]), Continuation(urls[i]));
  }

  lemma {:induction false} ContinuationLinesAppend(urls: seq<Url>, u: Url)
    ensures ContinuationLines(urls + [u]) == ContinuationLines(urls) + [Continuation(u)]
  {
    if urls != [] {
      assert (urls + [u])[1..] == urls[1..] + [u];
      ContinuationLinesAppend(urls[1..], u);
    }
  }

  // ---------------------------------------------------------------------
  // The descriptor object. Its copy-on-write implementation pointer is not
  // modelled: the fields below are those of the implementation record.

  class RepoInfo {
    var gpgcheck: TriBool
    var keeppackages: TriBool
    var gpgkeyUrl: Url
    var repoType: RepoType
    var path: string
    var service: string
    var targetDistro: string
    var metadataPath: string
    var packagesPath: string
    var priority: uint32
    var emptyBaseUrls: bool
    var mirrorListUrl: Url
    var baseUrls: seq<Url>
    var keywords: set<string>

    ghost predicate Valid()
      reads this
    {
      priority != 0 && Sorted(baseUrls)
    }

    function State(): Settings
      reads this
    {
      Settings(gpgcheck, keeppackages, gpgkeyUrl, repoType, path, service, targetDistro,
               metadataPath, packagesPath, priority, emptyBaseUrls, mirrorListUrl, baseUrls, keywords)
    }

    /** Both flags unset, no type, default priority, nothing else set. */
    constructor ()
      ensures Valid()
      ensures State() == Settings(Indeterminate, Indeterminate, "", NONE, "", "", "", "", "",
                                  DefaultPriority, false, "", [], {})
      ensures GpgCheck(State()) && !KeepPackages(State())
    {
      gpgcheck, keeppackages := Indeterminate, Indeterminate;
      gpgkeyUrl, repoType := "", NONE;
      path, service, targetDistro := "", "", "";
      metadataPath, packagesPath := "", "";
      priority, emptyBaseUrls := DefaultPriority, false;
      mirrorListUrl, baseUrls, keywords := "", [], {};
    }

    /** 0 stands for the default priority. */
    method SetPriority(newval: uint32)
      requires Valid()
      modifies this`priority
      ensures Valid()
      ensures State() == old(State()).(priority := if newval == 0 then DefaultPriority else newval)
    {
      priority := if newval != 0 then newval else DefaultPriority;
    }

    method SetGpgCheck(check: bool)
      requires Valid()
      modifies this`gpgcheck
      ensures Valid()
      ensures State() == old(State()).(gpgcheck := Known(check))
      ensures GpgCheck(State()) == check
    {
      gpgcheck := Known(check);
    }

    method SetKeepPackages(keep: bool)
      requires Valid()
      modifies this`keeppackages
      ensures Valid()
      ensures State() == old(State()).(keeppackages := Known(keep))
      ensures KeepPackages(State()) == keep
    {
      keeppackages := Known(keep);
    }

    method SetMirrorListUrl(url: Url)
      requires Valid()
      modifies this`mirrorListUrl
      ensures Valid()
      ensures State() == old(State()).(mirrorListUrl := url)
    {
      mirrorListUrl := url;
    }

    method SetGpgKeyUrl(url: Url)
      requires Valid()
      modifies this`gpgkeyUrl
      ensures Valid()
      ensures State() == old(State()).(gpgkeyUrl := url)
    {
      gpgkeyUrl := url;
    }

    method SetPath(p: string)
      requires Valid()
      modifies this`path
      ensures Valid()
      ensures State() == old(State()).(path := p)
    {
      path := p;
    }

    method SetMetadataPath(p: string)
      requires Valid()
      modifies this`metadataPath
      ensures Valid()
      ensures State() == old(State()).(metadataPath := p)
    {
      metadataPath := p;
    }

    method SetPackagesPath(p: string)
      requires Valid()
      modifies this`packagesPath
      ensures Valid()
      ensures State() == old(State()).(packagesPath := p)
    {
      packagesPath := p;
    }

    method SetService(name: string)
      requires Valid()
      modifies this`service
      ensures Valid()
      ensures State() == old(State()).(service := name)
    {
      service := name;
    }

    method SetTargetDistribution(distro: string)
      requires Valid()
      modifies this`targetDistro
      ensures Valid()
      ensures State() == old(State()).(targetDistro := distro)
    {
      targetDistro := distro;
    }

    /** An explicit type always replaces the current one. */
    method SetType(t: RepoType)
      requires Valid()
      modifies this`repoType
      ensures Valid()
      ensures State() == old(State()).(repoType := t)
    {
      repoType := t;
    }

    /** A probed type is taken only while no type is known. */
    method SetProbedType(t: RepoType)
      requires Valid()
      modifies this`repoType
      ensures Valid()
      ensures State() == old(State()).(repoType := ProbedType(old(repoType), t))
      ensures old(repoType) != NONE ==> repoType == old(repoType)
    {
      if repoType == NONE && t != NONE {
        repoType := t;
      }
    }

    /** Set insertion into the descriptor's own URLs (no mirror-list fallback). */
    method AddBaseUrl(url: Url)
      requires Valid()
      modifies this`baseUrls
      ensures Valid()
      ensures State() == old(State()).(baseUrls := baseUrls)
      ensures forall u :: u in baseUrls <==> u in old(baseUrls) || u == url
      ensures url in old(baseUrls) ==> baseUrls == old(baseUrls)
      ensures url !in old(baseUrls) ==> |baseUrls| == |old(baseUrls)| + 1
    {
      InsertSorted(baseUrls, url);
      InsertElements(baseUrls, url);
      InsertSize(baseUrls, url);
      baseUrls := Insert(baseUrls, url);
    }

    /** Clears the URLs, then inserts one. */
    method SetBaseUrl(url: Url)
      requires Valid()
      modifies this`baseUrls
      ensures Valid()
      ensures State() == old(State()).(baseUrls := [url])
    {
      baseUrls := [];
      AddBaseUrl(url);
    }

    /** The implementation's view of the URLs: an empty set is first filled
        from the mirror list, when one is configured, and marked as such.
        `mirrorUrls` is what the mirror list yields. */
    method CachedBaseUrls(mirrorUrls: seq<Url>) returns (urls: seq<Url>)
      requires Valid()
      modifies this`baseUrls, this`emptyBaseUrls
      ensures Valid()
      ensures urls == baseUrls
      ensures old(baseUrls) == [] && mirrorListUrl != "" ==>
        State() == old(State()).(emptyBaseUrls := true, baseUrls := baseUrls)
        && (forall u :: u in baseUrls <==> u in mirrorUrls)
        && !BaseUrlSet(State())
      ensures !(old(baseUrls) == [] && mirrorListUrl != "") ==> State() == old(State())
    {
      if baseUrls == [] && mirrorListUrl != "" {
        emptyBaseUrls := true;
        InsertAllSorted(baseUrls, mirrorUrls);
        baseUrls := InsertAll(baseUrls, mirrorUrls);
      }
      urls := baseUrls;
    }

    /** The public copy of the URLs, rebuilt one insertion at a time. */
    method BaseUrls(mirrorUrls: seq<Url>) returns (urls: seq<Url>)
      requires Valid()
      modifies this`baseUrls, this`emptyBaseUrls
      ensures Valid()
      ensures urls == baseUrls
      ensures old(baseUrls) == [] && mirrorListUrl != "" ==>
        State() == old(State()).(emptyBaseUrls := true, baseUrls := baseUrls)
        && (forall u :: u in baseUrls <==> u in mirrorUrls)
      ensures !(old(baseUrls) == [] && mirrorListUrl != "") ==> State() == old(State())
    {
      var cached := CachedBaseUrls(mirrorUrls);
      ghost var filled := State();
      urls := [];
      var i := 0;
      while i < |cached|
        invariant 0 <= i <= |cached|
        invariant State() == filled && cached == baseUrls
        invariant urls == cached[..i]
      {
        InsertGreatest(urls, cached[i]);
        urls := Insert(urls, cached[i]);
        assert cached[..i + 1] == cached[..i] + [cached[i]];
        i := i + 1;
      }
      assert cached[..i] == cached;
    }

    method BaseUrlsSize(mirrorUrls: seq<Url>) returns (n: nat)
      requires Valid()
      modifies this`baseUrls, this`emptyBaseUrls
      ensures Valid()
      ensures n == |baseUrls|
      ensures old(baseUrls) == [] && mirrorListUrl != "" ==>
        State() == old(State()).(emptyBaseUrls := true, baseUrls := baseUrls)
        && (forall u :: u in baseUrls <==> u in mirrorUrls)
      ensures !(old(baseUrls) == [] && mirrorListUrl != "") ==> State() == old(State())
    {
      var urls := CachedBaseUrls(mirrorUrls);
      n := |urls|;
    }

    method BaseUrlsEmpty(mirrorUrls: seq<Url>) returns (empty: bool)
      requires Valid()
      modifies this`baseUrls, this`emptyBaseUrls
      ensures Valid()
      ensures empty <==> baseUrls == []
      ensures old(baseUrls) == [] && mirrorListUrl != "" ==>
        State() == old(State()).(emptyBaseUrls := true, baseUrls := baseUrls)
        && (forall u :: u in baseUrls <==> u in mirrorUrls)
      ensures !(old(baseUrls) == [] && mirrorListUrl != "") ==> State() == old(State())
    {
      var urls := CachedBaseUrls(mirrorUrls);
      empty := urls == [];
    }

    method AddContent(keyword: string)
      requires Valid()
      modifies this`keywords
      ensures Valid()
      ensures State() == old(State()).(keywords := old(keywords) + {keyword})
    {
      keywords := keywords + {keyword};
    }

    /** Whether the repository has some content keyword. While no keyword is
        known and there is a metadata path, the master index is probed first;
        a completed probe leaves the marker "" behind so it is not repeated. */
    method HasContent(keyword: string, probe: ContentProbe) returns (found: bool)
      requires Valid()
      modifies this`keywords
      ensures Valid()
      ensures State() == old(State()).(keywords := keywords)
      ensures keywords ==
        if old(keywords) == {} && metadataPath != "" && ProbeKeywords(probe).Some?
        then ProbeKeywords(probe).value else old(keywords)
      ensures old(keywords) != {} ==> keywords == old(keywords)
      ensures old(keywords) == {} && metadataPath != "" && !probe.NoIndex? ==> "" in keywords
      ensures found <==> keyword in keywords
    {
      if keywords == {} && metadataPath != "" {
        match probe {
          case RepoMdIndex(nodes) =>
            keywords := keywords + (set c | c in nodes) + {""};
          case ContentFile(lines) =>
            var scanned := ScanContentLines(lines);
            keywords := keywords + scanned + {""};
          case NoIndex =>
        }
      }
      found := keyword in keywords;
    }

    /** `archive` is the archive's `tar -t` listing, None when there is no
        archive file. */
    method NeedToAcceptLicense(archive: Option<seq<string>>) returns (accept: bool)
      ensures accept <==> HasLicense(State(), archive) && NoAcceptanceFile !in UntilEmpty(archive.value)
    {
      if LicenseTgz(State()) == "" || archive.None? {
        return false;
      }
      accept := AcceptanceNeeded(archive.value);
    }

    method GetLicenseLocales(archive: Option<seq<string>>) returns (locales: set<Locale>)
      ensures locales == LicenseLocales(State(), archive)
      ensures forall l :: l in locales <==>
        HasLicense(State(), archive) && exists line :: line in UntilEmpty(archive.value) && LocaleOfLine(line) == Some(l)
    {
      if LicenseTgz(State()) == "" || archive.None? {
        return {};
      }
      locales := CollectLicenseLocales(archive.value);
    }

    /** The license text for a language. `bestMatch` is the locale matching
        rule and `extract` the line output of extracting one archive member;
        both are outside this model. When the best match is the locale
        without a code and the archive has no such text, some available
        locale (`first`) is used instead. */
    method GetLicense(lang: Locale, archive: Option<seq<string>>,
                      bestMatch: (set<Locale>, Locale) -> Locale,
                      extract: string -> seq<string>) returns (text: string)
      ensures var av := LicenseLocales(State(), archive);
        av == {} ==> text == ""
      ensures var av := LicenseLocales(State(), archive);
        av != {} ==> exists first :: first in av && text == LicenseText(extract, ChosenLocale(av, bestMatch(av, lang), first))
    {
      var av := GetLicenseLocales(archive);
      if av == {} {
        return "";
      }
      var loc := bestMatch(av, lang);
      var first :| first in av;
      if loc == NoCode && NoCode !in av {
        loc := first;
      }
      text := CollectText(extract(LicenseFileName(loc)));
    }

    /** The `baseurl=` entry: the first URL follows the key directly, each
        further URL goes on its own continuation line. */
    method WriteBaseUrls() returns (text: string)
      requires baseUrls != []
      ensures text == RenderAll(BaseUrlLines(baseUrls))
    {
      var urls := baseUrls;
      text := "baseurl=";
      var indent := "";
      var i := 0;
      while i < |urls|
        invariant 0 <= i <= |urls|
        invariant i == 0 ==> indent == "" && text == "baseurl="
        invariant i > 0 ==> indent == BaseUrlIndent && text == RenderAll(BaseUrlLines(urls[..i]))
      {
        if i > 0 {
          BaseUrlStep(urls, i);
        } else {
          BaseUrlFirst(urls);
          assert text + indent == text;
        }
        text := text + indent + urls[i] + "\n";
        if indent == "" {
          indent := BaseUrlIndent;
        }
        i := i + 1;
      }
      assert urls[..i] == urls;
    }

    /** The entries after the base URLs, each written only when set. The
        writes are split in two halves to keep each proof small. */
    method WriteFixedEntries() returns (text: string)
      ensures text == RenderAll(FixedLines(State()))
    {
      var head := WriteFixedHead();
      var tail := WriteFixedTail();
      text := head + tail;
      FixedLinesSplit(State());
      RenderAllConcat(FixedHead(State()), FixedTail(State()));
    }

    /** `path`, `mirrorlist`, `type` and `priority`. */
    method WriteFixedHead() returns (text: string)
      ensures text == RenderAll(FixedHead(State()))
    {
      ghost var s := State();
      text := "";
      if path != "" {
        text := text + "path=" + path + "\n";
      }
      EmitLine([], s.path != "", "path", s.path, "path=", "", text);
      ghost var lines := [] + OptLine(s.path != "", Entry("path", s.path));
      var before := text;
      if mirrorListUrl != "" {
        text := text + "mirrorlist=" + mirrorListUrl + "\n";
      }
      EmitLine(lines, s.mirrorListUrl != "", "mirrorlist", s.mirrorListUrl, "mirrorlist=", before, text);
      lines, before := lines + OptLine(s.mirrorListUrl != "", Entry("mirrorlist", s.mirrorListUrl)), text;
      text := text + "type=" + TypeName(repoType) + "\n";
      EmitLine(lines, true, "type", TypeName(s.repoType), "type=", before, text);
      lines, before := lines + OptLine(true, Entry("type", TypeName(s.repoType))), text;
      if priority != DefaultPriority {
        text := text + "priority=" + Decimal(priority as nat) + "\n";
      }
      EmitLine(lines, s.priority != DefaultPriority, "priority", Decimal(s.priority as nat), "priority=", before, text);
    }

    /** `gpgcheck`, `gpgkey`, `keeppackages` and `service`. */
    method WriteFixedTail() returns (text: string)
      ensures text == RenderAll(FixedTail(State()))
    {
      ghost var s := State();
      text := "";
      if gpgcheck.Known? {
        text := text + "gpgcheck=" + (if GpgCheck(State()) then "1" else "0") + "\n";
      }
      EmitLine([], s.gpgcheck.Known?, "gpgcheck", if GpgCheck(s) then "1" else "0", "gpgcheck=", "", text);
      ghost var lines := [] + OptLine(s.gpgcheck.Known?, Entry("gpgcheck", if GpgCheck(s) then "1" else "0"));
      var before := text;
      if gpgkeyUrl != "" {
        text := text + "gpgkey=" + gpgkeyUrl + "\n";
      }
      EmitLine(lines, s.gpgkeyUrl != "", "gpgkey", s.gpgkeyUrl, "gpgkey=", before, text);
      lines, before := lines + OptLine(s.gpgkeyUrl != "", Entry("gpgkey", s.gpgkeyUrl)), text;
      if keeppackages.Known? {
        text := text + "keeppackages=" + (if KeepPackages(State()) then "1" else "0") + "\n";
      }
      EmitLine(lines, s.keeppackages.Known?, "keeppackages", if KeepPackages(s) then "1" else "0", "keeppackages=", before, text);
      lines, before := lines + OptLine(s.keeppackages.Known?, Entry("keeppackages", if KeepPackages(s) then "1" else "0")), text;
      if service != "" {
        text := text + "service=" + service + "\n";
      }
      EmitLine(lines, s.service != "", "service", s.service, "service=", before, text);
    }

    /** The `.repo` section body: the base URLs (when they are the
        descriptor's own), then the fixed entries. */
    method DumpAsIni() returns (text: string)
      ensures text == RenderAll(IniLines(State()))
    {
      var urls := "";
      if !emptyBaseUrls && baseUrls != [] {
        urls := WriteBaseUrls();
      }
      var fixed := WriteFixedEntries();
      text := urls + fixed;
      RenderAllConcat(if BaseUrlSet(State()) then BaseUrlLines(baseUrls) else [], FixedLines(State()));
    }
  }
}
