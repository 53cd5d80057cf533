# libzypp repository descriptor and resolver session, in Dafny

This project models two parts of libzypp, the package-management library:

- **The repository descriptor `RepoInfo`** (`zypp/RepoInfo.cc`). It holds a repository's settings and the rules that give them defaults:
  - a priority where 0 means the default 99;
  - the tri-state `gpgcheck` and `keeppackages` flags;
  - a type that a probe sets only once.

  It also covers:
  - the ordered base-URL set, and its lazy fill from the mirror list;
  - the lazily probed content-keyword cache and its `REPOKEYWORDS` line scanner;
  - the readers of the license-archive listing, and the choice of license file;
  - the `.repo` INI serialisation, `dumpAsIniOn`.

  The descriptor is the class `Repository.RepoInfo`. Its setters update fields in place. The caches that the C++ code keeps `mutable` are fields that the reading methods update. The readers of program output are `while` loops, each proved against a function that specifies it.
- **The resolver session state** (`zypp/solver/detail/Resolver.h`). This is the class `Solver.Resolver`, with every field of the C++ class except the pointer to the SAT solver. The inline setters and getters are modelled exactly. The operations defined out of line are given only their frames.

Modules:

- `RepoText` (`text.dfy`) has the word splitter, listings read up to the first empty line, and decimal rendering.
- `RepoUrls` (`url_set.dfy`) has the URL set as a strictly increasing sequence.
- `RepoContent` (`content.dfy`) has the content-keyword probe.
- `RepoLicense` (`license.dfy`) has the license archive readers.
- `Repository` (`repo_info.dfy`) has the settings, the INI dump and its reader, and the `RepoInfo` class.
- `Solver` (`resolver.dfy`) has the resolver session.

Everything a file, a program or the network would supply is a parameter:

- the mirror list's URLs;
- the master index (the texts of the `content` nodes of `repomd.xml`, or the lines of the `content` file);
- the `tar -t` listing of `license.tar.gz`, which is `None` when the archive does not exist;
- the `tar -x -O` output;
- the locale matching rule.

Each reader of program output stops at the first empty line, as the source's `receiveLine` loops do. The `.repo` dump is built as a sequence of entries and continuation lines, which is then rendered as text. A reader of a section works on those entries, not on the rendered text. Reading a value back from the entries gives the setting the descriptor holds.

## Model

| member | source | states |
|---|---|---|
| RepoText.WordsOfJoin | zypp/RepoInfo.cc:136-137 | splitting words that were joined with blanks gives the same words back |
| RepoText.FirstWordStartsWithTag | zypp/RepoInfo.cc:134-138 | a line that starts with the tag has a first word that starts with the tag, and that word is 12 characters long exactly when it is the tag itself |
| RepoText.UntilEmpty | zypp/RepoInfo.cc:360 | the lines a loop reads are a prefix of the output, contain no empty line, and are followed by the empty line (or the end) |
| RepoText.DecimalRoundTrip | zypp/RepoInfo.cc:504-505 | a priority written in decimal reads back as the same number |
| RepoUrls.InsertElements | zypp/RepoInfo.cc:231-232 | after inserting into the URL set, it holds the old URLs and the new one, and nothing else |
| RepoUrls.InsertSorted | zypp/RepoInfo.cc:231-232 | insertion keeps the set strictly ordered |
| RepoUrls.InsertSize | zypp/RepoInfo.cc:231-232 | inserting a URL that is present leaves the set unchanged; inserting a new one adds exactly one |
| RepoUrls.InsertAllSorted | zypp/RepoInfo.cc:93 | a range insert keeps the set ordered and adds exactly the inserted URLs |
| RepoUrls.SortedUnique | zypp/RepoInfo.cc:93 | a set has one listing: two ordered sequences holding the same URLs are equal, so the set after a fill is fixed by the mirror URLs alone |
| RepoUrls.InsertGreatest | zypp/RepoInfo.cc:289-294 | inserting a URL above all present ones appends it, so copying a set in order rebuilds it unchanged |
| RepoContent.ScanLine | zypp/RepoInfo.cc:133-145 | a `REPOKEYWORDS` line contributes its keywords and any other line none; the scan goes on exactly when the line does not start with `META ` |
| RepoContent.StopIndex | zypp/RepoInfo.cc:144 | the index of the first line that starts with `META `; no earlier line does |
| RepoContent.KeywordLine | zypp/RepoInfo.cc:134-141 | a `REPOKEYWORDS` line contributes the words after the first exactly when the first word is the tag alone and more words follow |
| RepoContent.ScanKeywordsSpec | zypp/RepoInfo.cc:131-145 | the scan collects a keyword exactly when it is a keyword of some `REPOKEYWORDS` line before the first `META ` line; it keeps going after keyword lines |
| RepoContent.ScanStopsAtMeta | zypp/RepoInfo.cc:144 | lines after the first `META ` line never change the result |
| RepoContent.ScanContentLines | zypp/RepoInfo.cc:131-145 | the line-by-line scan with its stop flag collects exactly the specified keywords |
| RepoContent.ProbeKeywords | zypp/RepoInfo.cc:117-147 | a probe succeeds exactly when an index file exists, and a successful probe always adds the marker `""` |
| RepoLicense.LocaleOfLine | zypp/RepoInfo.cc:432-437 | a line yields a locale exactly when it starts with `license.` and ends with `.txt` and a newline; a locale with a code is the text between the two |
| RepoLicense.LicenseFileName | zypp/RepoInfo.cc:389-392 | the no-code locale's text is `license.txt`; any other locale's is `license.<code>.txt`, which is longer and has the same prefix and suffix |
| RepoLicense.LicenseFileRoundTrip | zypp/RepoInfo.cc:389-392 | the member a locale's text is stored under is read back from the listing as that locale (`license.txt` as the locale without a code) |
| RepoLicense.LocaleOfLineInverse | zypp/RepoInfo.cc:430-437 | a listed line yields a locale only if it is that locale's member name; the locale without a code comes only from `license.txt` (or `license..txt`) |
| RepoLicense.ChosenLocale | zypp/RepoInfo.cc:377-386 | the best match is used unless it is the no-code locale and the archive has no such text, in which case the first available locale (`first`) is used; the choice is available whenever the best match is available or is the no-code locale |
| RepoLicense.CollectLicenseLocales | zypp/RepoInfo.cc:426-441 | the locales collected from the listing up to its first empty line are exactly those of its license members |
| RepoLicense.AcceptanceNeeded | zypp/RepoInfo.cc:345-368 | acceptance is needed exactly when no line before the first empty one is `no-acceptance-needed\n` |
| RepoLicense.CollectText | zypp/RepoInfo.cc:403-410 | the license text is the concatenation of the output lines before the first empty one |
| Repository.GpgCheck | zypp/RepoInfo.cc:265-266 | signature checking is on while the flag is unset, and otherwise is the stored value |
| Repository.KeepPackages | zypp/RepoInfo.cc:268-269 | packages are not kept while the flag is unset, and otherwise the stored value applies |
| Repository.BaseUrlSet | zypp/RepoInfo.cc:101-102 | the URLs are written exactly when the set is not empty and was not filled from the mirror list |
| Repository.HasLicense | zypp/RepoInfo.cc:337-341 | there is a license exactly when a metadata path is set and the archive file exists |
| Repository.ProbedType | zypp/RepoInfo.cc:57-65 | a probe sets the type only while it is NONE |
| Repository.ProbeOnce | zypp/RepoInfo.cc:57-65 | a second probe never overrides the type the first one set |
| Repository.LicenseTgz | zypp/RepoInfo.cc:68-69 | the archive location is empty exactly when the metadata path is empty |
| Repository.CandidateKeys | zypp/RepoInfo.cc:496-516 | the dump's fixed entries have eight distinct keys, none of them `baseurl` |
| Repository.IniLookup | zypp/RepoInfo.cc:496-516 | looking up a key in the dump finds that entry's value exactly when it is written |
| Repository.IniPriority | zypp/RepoInfo.cc:504-505 | `priority=` appears exactly when the priority is not 99, and it reads back as the priority |
| Repository.IniGpgCheck | zypp/RepoInfo.cc:507-508 | `gpgcheck=` appears only when the flag was set, as `1` or `0` according to its value |
| Repository.IniKeepPackages | zypp/RepoInfo.cc:512-513 | `keeppackages=` appears only when the flag is set, as `1` or `0` |
| Repository.IniPath | zypp/RepoInfo.cc:496-497 | `path=` appears exactly when the path is not empty |
| Repository.IniBaseUrls | zypp/RepoInfo.cc:485-494 | reading the base URLs back from a dump gives the descriptor's own URLs in order, and none when they came from the mirror list |
| Repository.FixedLinesExpanded | zypp/RepoInfo.cc:496-516 | the fixed entries are written in source order, each only under its own condition |
| Repository.RenderAllConcat | zypp/RepoInfo.cc:481-519 | rendering two groups of lines one after the other gives the concatenation of their texts |
| Repository.RepoInfo.constructor | zypp/RepoInfo.cc:44-49 | a new descriptor has both flags unset, type NONE, priority 99 and nothing else set; signature checking reads as on and keeping packages as off |
| Repository.RepoInfo.SetPriority | zypp/RepoInfo.cc:213-220 | 0 stores the default 99, any other value is stored unchanged; nothing else changes |
| Repository.RepoInfo.SetGpgCheck | zypp/RepoInfo.cc:222-223 | the flag becomes set and signature checking reads as the given value; nothing else changes |
| Repository.RepoInfo.SetKeepPackages | zypp/RepoInfo.cc:256-257 | the flag becomes set and keeping packages reads as the given value; nothing else changes |
| Repository.RepoInfo.SetMirrorListUrl | zypp/RepoInfo.cc:225-226 | only the mirror-list URL changes |
| Repository.RepoInfo.SetGpgKeyUrl | zypp/RepoInfo.cc:228-229 | only the key URL changes |
| Repository.RepoInfo.SetPath | zypp/RepoInfo.cc:240-241 | only the path changes |
| Repository.RepoInfo.SetMetadataPath | zypp/RepoInfo.cc:250-251 | only the metadata path changes |
| Repository.RepoInfo.SetPackagesPath | zypp/RepoInfo.cc:253-254 | only the packages path changes |
| Repository.RepoInfo.SetService | zypp/RepoInfo.cc:259-260 | only the service name changes |
| Repository.RepoInfo.SetTargetDistribution | zypp/RepoInfo.cc:262-263 | only the target distribution changes |
| Repository.RepoInfo.SetType | zypp/RepoInfo.cc:243-244 | the type is overwritten unconditionally |
| Repository.RepoInfo.SetProbedType | zypp/RepoInfo.cc:246-247 | the type changes only while it is NONE; a known type is kept |
| Repository.RepoInfo.AddBaseUrl | zypp/RepoInfo.cc:231-232 | set insertion: the URLs are the old ones plus the new one; the set is unchanged if the URL is present, and otherwise grows by one |
| Repository.RepoInfo.SetBaseUrl | zypp/RepoInfo.cc:234-238 | the URL set becomes exactly the given URL |
| Repository.RepoInfo.CachedBaseUrls | zypp/RepoInfo.cc:77-102 | an empty set with a mirror list configured is filled with exactly the mirror URLs and marked as filled, so it is no longer dumped; otherwise nothing changes |
| Repository.RepoInfo.BaseUrls | zypp/RepoInfo.cc:286-296 | the copy loop returns exactly the stored (possibly just filled) URL set |
| Repository.RepoInfo.BaseUrlsSize | zypp/RepoInfo.cc:319-320 | the size of the URL set after the fill: an empty set with a mirror list is first filled with exactly the mirror URLs and marked as filled; otherwise nothing changes |
| Repository.RepoInfo.BaseUrlsEmpty | zypp/RepoInfo.cc:322-323 | whether the URL set is empty after the fill: an empty set with a mirror list is first filled with exactly the mirror URLs and marked as filled; otherwise nothing changes, so a new descriptor without a mirror list reports empty |
| Repository.RepoInfo.AddContent | zypp/RepoInfo.cc:105-106 | the keyword is added to the cache |
| Repository.RepoInfo.HasContent | zypp/RepoInfo.cc:108-152 | the probe runs only while the cache is empty and a metadata path is set; a successful probe leaves `""` in the cache, so it never runs again; the answer is whether the keyword is in the cache |
| Repository.RepoInfo.NeedToAcceptLicense | zypp/RepoInfo.cc:343-369 | false when there is no archive; otherwise true exactly when the listing lacks the `no-acceptance-needed` marker |
| Repository.RepoInfo.GetLicenseLocales | zypp/RepoInfo.cc:413-442 | empty when there is no archive; otherwise the locales of the license members in the listing |
| Repository.RepoInfo.GetLicense | zypp/RepoInfo.cc:371-411 | empty text when no locale is available; otherwise the extracted text of the chosen locale's member |
| Repository.RepoInfo.WriteBaseUrls | zypp/RepoInfo.cc:487-493 | `baseurl=` with the first URL on the same line, each later URL on a line of its own indented by eight blanks |
| Repository.RepoInfo.WriteFixedEntries | zypp/RepoInfo.cc:496-516 | the fixed entries, each written exactly under its condition, in source order |
| Repository.RepoInfo.WriteFixedHead | zypp/RepoInfo.cc:496-505 | `path=`, `mirrorlist=`, `type=` and `priority=`, each written exactly under its condition, in source order |
| Repository.RepoInfo.WriteFixedTail | zypp/RepoInfo.cc:507-516 | `gpgcheck=`, `gpgkey=`, `keeppackages=` and `service=`, each written exactly under its condition, in source order |
| Repository.FixedLinesSplit | zypp/RepoInfo.cc:496-516 | the fixed entries are the first four candidates followed by the last four |
| Repository.RepoInfo.DumpAsIni | zypp/RepoInfo.cc:481-519 | the dump is the rendering of the base-URL lines (only when the URLs are the descriptor's own) followed by the fixed entries |
| Solver.Resolver.ExtraRequires | zypp/solver/detail/Resolver.h:144 | returns the session's current extra requires, without changing the session |
| Solver.Resolver.ExtraConflicts | zypp/solver/detail/Resolver.h:145 | returns the session's current extra conflicts, without changing the session |
| Solver.Resolver.ForceResolve | zypp/solver/detail/Resolver.h:158 | returns the session's force-resolve flag, without changing the session |
| Solver.Resolver.OnlyRequires | zypp/solver/detail/Resolver.h:162 | returns the session's only-requires setting, without changing the session |
| Solver.Resolver.ProblematicUpdateItems | zypp/solver/detail/Resolver.h:168 | returns the items the last upgrade found problematic, unchanged, without changing the session |
| Solver.Resolver.Testing | zypp/solver/detail/Resolver.h:178 | returns the session's testing flag, without changing the session |
| Solver.Resolver.SetPool | zypp/solver/detail/Resolver.h:137 | only the pool changes; the extra requires and conflicts, the ignore tables, the problem and unmaintained items and all flags are untouched |
| Solver.Resolver.SetForceResolve | zypp/solver/detail/Resolver.h:157-158 | `ForceResolve()` returns the value set, and nothing else changes |
| Solver.Resolver.SetOnlyRequires | zypp/solver/detail/Resolver.h:160-162 | `OnlyRequires()` returns the state set, and nothing else changes |
| Solver.Resolver.SetTesting | zypp/solver/detail/Resolver.h:178-179 | `Testing()` returns the value set, and nothing else changes |

The getters are functions that read the session, so they cannot change it. `TriState` (Resolver.h:54-59) is a datatype with exactly the constructors FALSE, TRUE and DEFAULT.

## Left out

- File, process and network access are not modelled. They appear as parameters: `PathInfo` checks, reading `repomd.xml` with `xml::Reader`, reading the `content` file line by line, running `tar`, and fetching the mirror list.
- The URL variable replacer is the identity. URLs are used exactly as stored, in the base-URL copy and for the mirror-list URL.
- `std::set<Url>` is ordered by the lexicographic order of the URL text. `Url`'s own comparison is not part of this model.
- Pathnames are joined with `/`, without normalisation. `Pathname` is not part of this model.
- The type names written to the dump (`NONE`, `rpm-md`, `yast2`, `plaindir`) stand for `RepoType::asString`. RepoType.cc is not part of this model.
- `Locale::bestMatch` is a parameter of `GetLicense`. Nothing is assumed about it. The locale `GetLicense` uses is available whenever the best match is available or is the locale without a code, as `ChosenLocale` states. A best match outside the available set is passed on as it is.
- A locale is its code string, as `Locale(std::string)` builds one from a listed name. The empty code is the locale without a code.
- Words are split at blanks and tabs, the default separators of `str::split`. The lines of the `content` file are given without their newline, as `forEachLine` hands them to the callback. The lines of a `tar` listing keep their newline, as `receiveLine` returns them.
- A `Url` is written as its stored text. `Url`'s stream output (`asString()`, which hides a password by default) is not part of this model. This applies to the base URLs, `mirrorlist=` and `gpgkey=` in the dump.
- The dump's values are written unescaped, as in the source. A value that contains a newline (a service name, say) makes the rendered text hold extra lines. The readers `Lookup` and `ReadBaseUrls` work on the entries the dump is built from, so they do not see such lines.
- Exceptions from the external calls are not modelled. In the source the mirror fetch runs after `emptybaseurls` is set, so a failing fetch leaves the flag set and the URL set empty. A failing `xml::Reader` leaves the keywords read so far cached without the `""` marker. The model's fetch and probe always succeed.
- Repository.RepoInfo.GetLicense: when the best match has no text, the source uses the first locale of the set in `Locale` order. The contract says only that some available locale is used, because `Locale`'s order is not part of this model.
- Repository.RepoInfo.HasContent: `repomd.xml` is given as the list of texts of its depth-2 `content` nodes. The XML navigation is not modelled.
- The generic part of the section (`RepoInfoBase::dumpAsIniOn`) is not modelled. Nor are the debug output `dumpOn`, the XML output `dumpAsXmlOn` with `xml::escape`, and `operator<<`.
- The getters that return a field unchanged are not separate members. The dump and the setter contracts read those fields directly. They are `priority`, `defaultPriority`, `type`, `path`, `service`, `targetDistribution`, `metadataPath`, `packagesPath`, `gpgKeyUrl` and `mirrorListUrl`.
- The copy-on-write implementation pointer, `noRepo` and `baseUrlsBegin`/`baseUrlsEnd` are not modelled. The transform iterators are the sequence `BaseUrls` returns.
- The priority is a 32-bit unsigned number (`uint32`), as `unsigned` is. No arithmetic is done on it.
- The resolver's out-of-line operations have frames and arbitrary outcomes, and no postconditions. Their bodies are not in the header, and the work is done by the SAT solver. They are the constructor, `Pool`, `AddExtraRequire`/`RemoveExtraRequire`, `AddExtraConflict`/`RemoveExtraConflict`, the `AddIgnore*` operations, `VerifySystem`, `ResolvePool`, `DoUpgrade`, `Problems`, `ApplySolutions`, `Undo`, `Reset`, `CheckUnmaintainedItems`, `DoesObsoleteCapability` and `DoesObsoleteItem`.
- The resolver's SAT-solver pointer, `dumpOn`, reference counting and the destructor are not modelled.
- The pool, its items, capabilities, problems, solutions and upgrade statistics are opaque identities.
- zypp/base/Exception.h, zypp/sat/WhatObsoletes.h, zypp/Resolvable.cc and zypp/cache/Attribute.cc are not part of this model. They hold logging and exception plumbing, an iterator over solver-owned data, and forwarding code.
