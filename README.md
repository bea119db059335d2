# Stash docset catalog — a Dafny model

Stash indexes documentation archives ("docsets") into symbol catalogs and
answers prefix and substring queries against them. This project models the
catalog and search core:

- **Symbols** (`symbol.dfy`, `Stash/STASymbol.h`): the symbol record with its
  two closed enumerations and their fixed `unsigned char` codes, the total
  name-to-enumeration lookups, the three initialisers, the property-list
  encoding and decoding, case-insensitive prefix/contains matching, and the
  `compare:` ordering.
- **DocSets** (`docset.dfy`, `Stash/STADocSet.h` and `Stash/STADocSetInternal.h`):
  the platform enumeration and a `DocSet` class. Its metadata has setters. Its
  symbol collection is replaced wholesale by `setSymbols:` or by the catalog
  loader. Search walks the collection and reports every symbol that matches.
- **DocSetStore** (`docset_store.dfy`, `Stash/STADocSetStore.h`): a `Store` class
  holding the loaded docsets and the docsets still indexing. Search gathers the
  matches of the loaded docsets, or of a chosen subset, and sorts them into one
  sequence by symbol comparison.
- **ProgressReporting** (`progress_reporter.dfy`, `Stash/STAProgressReporter.h`): the
  `int32` unit counter. It derives an exact `real` progress fraction and records
  one handler notification for each counter update.

All `.dfy` files form one program: `dafny verify *.dfy`.

Modelling decisions:
- The repository's implementation files are not part of this model. Only the
  declarations are. Behaviour follows the declarations and the names they carry.
- Matching ignores letter case. Search is a lookup a user types into, and
  symbol names mix cases (`NSArray`, `nsarray` should find the same entries).
- `compare:` orders by case-folded name first, so results read alphabetically.
  Ties are broken by symbol type code, then language code: these are the
  other two fields a symbol carries that are plain values.
- One docset reports its matches in stored order. Nothing in the declarations
  asks for more, and the store sorts the merged results anyway.
- URLs are opaque strings, and an anchor is appended after `#`.
- A symbol's owning docset is a key (`DocSetId`), not an object reference.
- The string table behind `STALanguageFromNSString` and `STASymbolTypeFromNSString`
  is not visible. It is a `NameTable` parameter of the lookups, and any name
  missing from it maps to `Unknown`.
- The property-list keys (`language`, `symbolType`, `symbolName`, `URL`) are
  this model's choice. Codes are stored as numbers.
- An entry with a missing key, a wrong kind of value or an out-of-range code
  does not decode. The docset loader then leaves the stored collection as it
  was and reports `ok == false`. The original method returns nothing.
- Asynchronous completion handlers become returned sequences. Each progress
  handler call becomes an entry in `notifications`.

## Model

| member | source | states |
|---|---|---|
| `Symbols.LanguageCode` | Stash/STASymbol.h:11-18 | every language has a code in 0..4, and only `Unknown` has code 0 |
| `Symbols.LanguageFromCode` | Stash/STASymbol.h:11-18 | exactly the codes 0..4 name a language, and the named language has that code |
| `Symbols.LanguageCodeRoundTrip` | Stash/STASymbol.h:11-18 | code to language after language to code is the identity |
| `Symbols.LanguageCodeInjective` | Stash/STASymbol.h:11-18 | distinct languages have distinct codes |
| `Symbols.SymbolTypeCode` | Stash/STASymbol.h:20-40 | every symbol type has a code in 0..17, and only `Unknown` has code 0 |
| `Symbols.SymbolTypeFromCode` | Stash/STASymbol.h:20-40 | exactly the codes 0..17 name a symbol type, and the named type has that code |
| `Symbols.SymbolTypeCodeRoundTrip` | Stash/STASymbol.h:20-40 | code to symbol type after symbol type to code is the identity |
| `Symbols.SymbolTypeCodeInjective` | Stash/STASymbol.h:20-40 | distinct symbol types have distinct codes |
| `Symbols.LanguageFromString` | Stash/STASymbol.h:48 | total; a name in the table gives its entry, an unrecognised name gives `Unknown` |
| `Symbols.SymbolTypeFromString` | Stash/STASymbol.h:49 | total; a name in the table gives its entry, an unrecognised name gives `Unknown` |
| `Symbols.WithAnchor` | Stash/STASymbol.h:68-73 | the document location is a prefix of the URL, and the anchor can be read back after the `#` |
| `Symbols.ResolveRelative` | Stash/STASymbol.h:61-66 | the docset root is a prefix of the resolved URL, followed by `/` and the relative path |
| `Symbols.SymbolWithURL` | Stash/STASymbol.h:68-73 | the symbol has the given language, type, name and docset; its URL is the file URL when there is no anchor, and otherwise the file URL, then `#`, then the anchor |
| `Symbols.SymbolWithRelativePath` | Stash/STASymbol.h:61-66 | the symbol has the given language, type, name and docset; its URL is the docset root, then `/`, then the relative path, followed by `#` and the anchor when one is given and by nothing otherwise |
| `Symbols.SymbolWithStrings` | Stash/STASymbol.h:75-80 | never fails: language and type are the two name lookups (so unrecognised names give `Unknown`), name and docset are as given, and the URL is the file URL, followed by `#` and the anchor when one is given |
| `Symbols.PropertyList` | Stash/STASymbol.h:83 | the representation has exactly the four field keys and carries the name and URL as text |
| `Symbols.SymbolFromPropertyList` | Stash/STASymbol.h:82 | decoding succeeds exactly when all four keys hold values of the right kind and in-range codes; the decoded symbol belongs to the given docset |
| `Symbols.PropertyListRoundTrip` | Stash/STASymbol.h:82-83 | decoding a symbol's representation gives back its language, type, name and URL, with the supplied docset |
| `Symbols.PropertyListDecodeEncode` | Stash/STASymbol.h:82-83 | a decoded symbol re-encodes to the same values on every key of the representation |
| `Symbols.Matches` | Stash/STASymbol.h:85 | the empty query matches under both methods, and a matching query is never longer than the name |
| `Symbols.HasSubstringCorrect` | Stash/STASymbol.h:44-46 | the left-to-right scan finds the query exactly when it occurs at some position of the name |
| `Symbols.MatchesMeaning` | Stash/STASymbol.h:85 | a prefix match means the case-folded name starts with the case-folded query; a contains match means the query occurs in the name |
| `Symbols.PrefixMatchImpliesContainsMatch` | Stash/STASymbol.h:85 | a prefix match is also a contains match |
| `Symbols.FoldUpperString` | Stash/STASymbol.h:85 | case folding an upper-cased string equals case folding the original |
| `Symbols.MatchesIgnoresCase` | Stash/STASymbol.h:85 | upper-casing name and query does not change the match under either method |
| `Symbols.CompareStringsSame` | Stash/STASymbol.h:87 | two strings compare the same exactly when they are equal |
| `Symbols.CompareStringsFlip` | Stash/STASymbol.h:87 | swapping the strings flips the comparison |
| `Symbols.CompareStringsTransitive` | Stash/STASymbol.h:87 | "not after" on strings is transitive |
| `Symbols.Compare` | Stash/STASymbol.h:87 | whenever the case-folded names differ, they alone decide the order, and the symbols never compare the same |
| `Symbols.CompareSame` | Stash/STASymbol.h:87 | two symbols compare the same exactly when their case-folded names, types and languages agree |
| `Symbols.CompareReflexive` | Stash/STASymbol.h:87 | a symbol compares the same as itself |
| `Symbols.CompareAntisymmetric` | Stash/STASymbol.h:87 | ascending one way is descending the other way |
| `Symbols.CompareTotal` | Stash/STASymbol.h:87 | of any two symbols, one sorts no later than the other |
| `Symbols.CompareTransitive` | Stash/STASymbol.h:87 | "sorts no later than" is transitive |
| `DocSets.PlatformCode` | Stash/STADocSet.h:13-19 | every platform has a code in 0..2 |
| `DocSets.PlatformFromCode` | Stash/STADocSet.h:13-19 | exactly the codes 0..2 name a platform: MacOS, iOS or Unknown |
| `DocSets.PlatformCodeRoundTrip` | Stash/STADocSet.h:13-19 | code to platform after platform to code is the identity |
| `DocSets.DocSet.constructor` | Stash/STADocSet.h:21-25 | a docset starts with the given metadata and no symbols |
| `DocSets.DocSet.SetName` | Stash/STADocSet.h:23 | reading `name` back gives the value set; only `name` changes |
| `DocSets.DocSet.SetVersion` | Stash/STADocSet.h:24 | reading `version` back gives the value set; only `version` changes |
| `DocSets.DocSet.SetPlatform` | Stash/STADocSet.h:25 | reading `platform` back gives the value set; only `platform` changes |
| `DocSets.DocSet.Search` | Stash/STADocSet.h:30 | reports only stored symbols owned by this docset, and changes nothing |
| `DocSets.DocSet.SetSymbols` | Stash/STADocSetInternal.h:6 | the collection afterwards is exactly the given one; nothing is merged and only the collection changes |
| `DocSets.DocSet.LoadSymbolsFromPropertyList` | Stash/STADocSetInternal.h:5 | succeeds exactly when every entry decodes and then installs the decoded collection; otherwise it changes nothing |
| `DocSets.DecodeAll` | Stash/STADocSetInternal.h:5 | a decoded catalog has one symbol per entry, all owned by the docset it is loaded into |
| `DocSets.DecodeAllMeaning` | Stash/STADocSetInternal.h:5 | a collection decodes exactly when each entry does; it then has one symbol per entry, in order, each owned by this docset |
| `DocSets.DecodeAllRoundTrip` | Stash/STADocSetInternal.h:5 | decoding the representations of an owned collection gives that collection back |
| `DocSets.DecodeAllPrefixFails` | Stash/STADocSetInternal.h:5 | one unreadable entry makes the whole catalog unreadable |
| `DocSets.LoadRestoresSymbols` | Stash/STADocSetInternal.h:5-6 | loading the representations of a collection installs exactly the collection that `setSymbols:` would |
| `DocSets.Filter` | Stash/STADocSetInternal.h:8 | the reported symbols are no more than the stored ones, and each is stored and matches |
| `DocSets.DocSet.SearchBy` | Stash/STADocSetInternal.h:8 | reports exactly the stored symbols that match, in stored order; changes nothing |
| `DocSets.FilterMembers` | Stash/STADocSetInternal.h:8 | a symbol is reported exactly when it is stored and matches, so results are a subset of the stored symbols |
| `DocSets.FilterCounts` | Stash/STADocSetInternal.h:8 | each matching symbol is reported as many times as it is stored, and a non-matching one never |
| `DocSetStore.Store.AllDocsets` | Stash/STADocSetStore.h:14-16 | `allDocsets` is the loaded docsets followed by the indexing ones |
| `DocSetStore.Store.AllDocsetsUnion` | Stash/STADocSetStore.h:14-16 | a docset is in `allDocsets` exactly when it is in one of the two partitions |
| `DocSetStore.Store.PartitionDisjoint` | Stash/STADocSetStore.h:14-15 | no docset, and no docset key, is both loaded and indexing |
| `DocSetStore.Store.constructor` | Stash/STADocSetStore.h:14-16 | a store starts with both partitions empty |
| `DocSetStore.Store.BeginIndexing` | Stash/STADocSetStore.h:15 | a new docset joins the indexing partition; the invariant is kept |
| `DocSetStore.Store.FinishIndexing` | Stash/STADocSetStore.h:14-15 | an indexing docset moves to the loaded partition; the invariant is kept |
| `DocSetStore.Insert` | Stash/STADocSetStore.h:22-23 | inserting into an ordered sequence keeps it ordered and adds exactly the new symbol |
| `DocSetStore.InsertFrontSorted` | Stash/STASymbol.h:87 | a symbol that sorts no later than an ordered sequence's head can go in front |
| `DocSetStore.InsertConsSorted` | Stash/STASymbol.h:87 | the head of an ordered sequence can go in front of any ordered permutation of its tail plus a later symbol |
| `DocSetStore.SortSymbols` | Stash/STADocSetStore.h:22-23 | the merge order is non-decreasing under `compare:` and is a permutation of its input |
| `DocSetStore.Gather` | Stash/STADocSetStore.h:23 | every gathered symbol matches the query under the given method |
| `DocSetStore.GatherMembers` | Stash/STADocSetStore.h:23 | a symbol is gathered exactly when it matches and some searched docset stores it |
| `DocSetStore.SearchResults` | Stash/STADocSetStore.h:22-23 | the merged result is non-decreasing under `compare:` and a permutation of the gathered matches |
| `DocSetStore.SearchResultsMeaning` | Stash/STADocSetStore.h:22-23 | results are ordered, are a permutation of the gathered matches, and hold exactly the matching symbols of the searched docsets |
| `DocSetStore.SearchResultsMonotone` | Stash/STADocSetStore.h:23 | searching a subset of docsets finds a subset of what searching a superset finds |
| `DocSetStore.Store.SearchString` | Stash/STADocSetStore.h:22 | the all-docsets search is the chosen-docsets search applied to the loaded docsets; it changes nothing |
| `DocSetStore.Store.SearchStringInDocSets` | Stash/STADocSetStore.h:23 | the result is the sorted merge of each chosen docset's matches; it changes nothing |
| `DocSetStore.Store.SearchStringSound` | Stash/STADocSetStore.h:22 | every result of a search over the loaded docsets matches and is owned by, and stored in, a loaded docset |
| `DocSetStore.Store.IndexingDocsetsExcluded` | Stash/STADocSetStore.h:14-22 | no symbol of a docset that is still indexing is in a search over the loaded docsets |
| `ProgressReporting.ProgressOf` | Stash/STAProgressReporter.h:9-12 | progress is indeterminate exactly when the total is 0; otherwise it is completed divided by total |
| `ProgressReporting.ProgressWithinUnitInterval` | Stash/STAProgressReporter.h:9-12 | with 0 <= completed <= total and total non-zero, progress lies in [0, 1] |
| `ProgressReporting.ProgressMonotone` | Stash/STAProgressReporter.h:9-12 | with the total fixed and positive, more completed units never mean less progress |
| `ProgressReporting.ProgressComplete` | Stash/STAProgressReporter.h:9-12 | with a positive total, progress is exactly 1 when all units are completed, and only then |
| `ProgressReporting.ProgressReporter.constructor` | Stash/STAProgressReporter.h:14 | the reporter keeps exactly the given queue and handler (both immutable), with zero units and no notifications |
| `ProgressReporting.ProgressReporter.IsIndeterminate` | Stash/STAProgressReporter.h:10 | indeterminate exactly when the progress the counters imply is unknown, that is when the total is 0 |
| `ProgressReporting.ProgressReporter.Progress` | Stash/STAProgressReporter.h:9-10 | indeterminate exactly when `isIndeterminate`; otherwise progress times total is the completed units |
| `ProgressReporting.ProgressReporter.SetTotalUnits` | Stash/STAProgressReporter.h:11 | sets the total, notifies the handler once with the new progress, and leaves the completed units alone |
| `ProgressReporting.ProgressReporter.SetCompletedUnits` | Stash/STAProgressReporter.h:12 | sets the completed units, notifies the handler once with the new progress, and leaves the total alone |
| `ProgressReporting.ReportPass` | Stash/STAProgressReporter.h:8-12 | counting the units of a positive total one by one keeps every notification recorded before the pass, ends with both counters at the total, and reports only fractions in [0, 1], each no smaller than the one before, the last exactly 1 |

## Left out

- Discovery, manifest reading, cache files and staleness checks. This covers `docSetWithURL:onceIndexed:`, `initWithURL:onceIndexed:`, `initWithCacheDirectory:` and `loadWithCompletionHandler:`. They are file-system I/O. `BeginIndexing` and `FinishIndexing` model only the partition changes that loading makes.
- The indexer protocol (`Stash/STADocSetIndexer.h`). It parses an archive format that is not part of this model. Its output reaches the model through `SetSymbols`.
- The window and search-field UI (`Stash/STAMainWindowController.h`): it is presentation only.
- Dispatch queues, asynchronous completion handlers and concurrent indexing. Searches are sequential, and handler calls are recorded events.
- `NSCoding` archiving of a docset. Path resolution of `NSURL` beyond putting a relative path under the docset root after `/`.
- The `unsafe_unretained` back-reference. It is a docset key, so a symbol cannot dangle after its docset is unloaded.
- Floating-point progress: progress is an exact `real`.
- Symbols.Matches: folds only the ASCII letters A–Z. Foundation's case-insensitive search folds all of Unicode.
- Symbols.Compare: the tie-break after the name (symbol type, then language) is inferred, not taken from visible code. Symbols whose folded names, types and languages agree compare the same, so their merged order depends on the input order.
- Symbols.LanguageFromString: the concrete table of language and symbol-type names is a parameter, not fixed.
- DocSets.DocSet.Search: which match method the two-argument `search:onResult:` uses is not visible; the model uses prefix matching.
- DocSets.DocSet.SearchBy: reports in stored order, not in `compare:` order. Nothing in the declarations asks for an order here, and the store sorts the merged results anyway.
- DocSets.DocSet.SetSymbols: requires that every symbol given names this docset as its owner. A symbol is built as the child of exactly one docset, so the indexer hands over only symbols it built for this docset. The model assumes this where the symbols arrive and does not prove it about the indexer, which is not part of this model. The ownership promises of `DocSets.DocSet.Search`, `DocSetStore.Store.SearchStringSound` and `DocSetStore.Store.IndexingDocsetsExcluded` rest on it.
- DocSets.DocSet.SetVersion: the header declares `version` as `NSStream *`, which is evidently meant as a version string; it is modelled as a string.
- ProgressReporting.ProgressOf: the `double` value reported while the total is 0 is not visible. It is modelled as `Indeterminate`.
- ProgressReporting.ProgressReporter.SetCompletedUnits: keeping completed units within the total, and non-decreasing within an indexing pass, is up to the caller. The setters do not enforce it.
