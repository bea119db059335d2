/**
  One documentation entry of a docset (STASymbol): its language and kind,
  drawn from two closed enumerations with fixed byte-sized codes, its name,
  the URL of its documentation and a non-owning reference to its docset.
  Symbols are immutable values; matching against a query and the ordering
  used for search results are functions on them.
 */
module Symbols {
  import opened Wrappers

  /** The C `unsigned char` the two enumerations are stored in. */
  newtype uint8 = x: int | 0 <= x < 256

  // ---------------------------------------------------------------------------
  // Languages
  // ---------------------------------------------------------------------------

  datatype Language = Unknown | C | CPlusPlus | ObjectiveC | Javascript

  /** The fixed code of each language. */
  function LanguageCode(l: Language): (c: uint8)
    ensures c <= 4
    ensures (c == 0) <==> l == Language.Unknown
  {
    match l
    case Unknown => 0
    case C => 1
    case CPlusPlus => 2
    case ObjectiveC => 3
    case Javascript => 4
  }

  /** The language a code stands for; only the codes 0 to 4 name one. */
  function LanguageFromCode(c: uint8): (l: Option<Language>)
    ensures l.Some? <==> c <= 4
    ensures l.Some? ==> LanguageCode(l.value) == c
  {
    if c == 0 then Some(Language.Unknown)
    else if c == 1 then Some(Language.C)
    else if c == 2 then Some(Language.CPlusPlus)
    else if c == 3 then Some(Language.ObjectiveC)
    else if c == 4 then Some(Language.Javascript)
    else None
  }

  lemma LanguageCodeRoundTrip(l: Language)
    ensures LanguageFromCode(LanguageCode(l)) == Some(l)
  {
  }

  /** No two languages share a code. */
  lemma LanguageCodeInjective(a: Language, b: Language)
    requires LanguageCode(a) == LanguageCode(b)
    ensures a == b
  {
  }

  // ---------------------------------------------------------------------------
  // Symbol types
  // ---------------------------------------------------------------------------

  datatype SymbolType =
    | Unknown
    | Function
    | Macro
    | TypeDefinition
    | Class
    | Interface
    | Category
    | ClassMethod
    | ClassConstant
    | InstanceMethod
    | InstanceProperty
    | InterfaceMethod
    | InterfaceClassMethod
    | InterfaceProperty
    | EnumerationConstant
    | Data
    | Tag
    | Binding

  /** The fixed code of each symbol type. */
  function SymbolTypeCode(t: SymbolType): (c: uint8)
    ensures c <= 17
    ensures (c == 0) <==> t == SymbolType.Unknown
  {
    match t
    case Unknown => 0
    case Function => 1
    case Macro => 2
    case TypeDefinition => 3
    case Class => 4
    case Interface => 5
    case Category => 6
    case ClassMethod => 7
    case ClassConstant => 8
    case InstanceMethod => 9
    case InstanceProperty => 10
    case InterfaceMethod => 11
    case InterfaceClassMethod => 12
    case InterfaceProperty => 13
    case EnumerationConstant => 14
    case Data => 15
    case Tag => 16
    case Binding => 17
  }

  /** The symbol type a code stands for; only the codes 0 to 17 name one. */
  function SymbolTypeFromCode(c: uint8): (t: Option<SymbolType>)
    ensures t.Some? <==> c <= 17
    ensures t.Some? ==> SymbolTypeCode(t.value) == c
  {
    if c > 17 then None
    else Some([SymbolType.Unknown, SymbolType.Function, SymbolType.Macro,
               SymbolType.TypeDefinition, SymbolType.Class, SymbolType.Interface,
               SymbolType.Category, SymbolType.ClassMethod, SymbolType.ClassConstant,
               SymbolType.InstanceMethod, SymbolType.InstanceProperty,
               SymbolType.InterfaceMethod, SymbolType.InterfaceClassMethod,
               SymbolType.InterfaceProperty, SymbolType.EnumerationConstant,
               SymbolType.Data, SymbolType.Tag, SymbolType.Binding][c])
  }

  lemma SymbolTypeCodeRoundTrip(t: SymbolType)
    ensures SymbolTypeFromCode(SymbolTypeCode(t)) == Some(t)
  {
  }

  /** No two symbol types share a code. */
  lemma SymbolTypeCodeInjective(a: SymbolType, b: SymbolType)
    requires SymbolTypeCode(a) == SymbolTypeCode(b)
    ensures a == b
  {
  }

  // ---------------------------------------------------------------------------
  // Names of the enumeration members
  // ---------------------------------------------------------------------------

  /**
    The names under which the archive format spells languages and symbol
    types. Which strings these are is not part of this model; the lookups
    below are total over any such table.
   */
  datatype NameTable = NameTable(languages: map<string, Language>, symbolTypes: map<string, SymbolType>)

  /** STALanguageFromNSString: never fails; an unrecognised name gives Unknown. */
  function LanguageFromString(table: NameTable, name: string): (l: Language)
    ensures name in table.languages ==> l == table.languages[name]
    ensures name !in table.languages ==> l == Language.Unknown
    ensures l != Language.Unknown ==> name in table.languages && table.languages[name] == l
  {
    if name in table.languages then table.languages[name] else Language.Unknown
  }

  /** STASymbolTypeFromNSString: never fails; an unrecognised name gives Unknown. */
  function SymbolTypeFromString(table: NameTable, name: string): (t: SymbolType)
    ensures name in table.symbolTypes ==> t == table.symbolTypes[name]
    ensures name !in table.symbolTypes ==> t == SymbolType.Unknown
    ensures t != SymbolType.Unknown ==> name in table.symbolTypes && table.symbolTypes[name] == t
  {
    if name in table.symbolTypes then table.symbolTypes[name] else SymbolType.Unknown
  }

  // ---------------------------------------------------------------------------
  // The symbol record and its initialisers
  // ---------------------------------------------------------------------------

  /** The owning docset, referred to by key rather than held. */
  type DocSetId = nat

  datatype Symbol = Symbol(
    language: Language,
    symbolType: SymbolType,
    symbolName: string,
    url: string,
    docSet: DocSetId)

  /** A document location with an optional in-page anchor appended after `#`. */
  function WithAnchor(location: string, anchor: Option<string>): (u: string)
    ensures |location| <= |u| && u[..|location|] == location
    ensures anchor.None? ==> u == location
    ensures anchor.Some? ==> |u| == |location| + 1 + |anchor.value|
                             && u[|location|] == '#' && u[|location| + 1..] == anchor.value
  {
    match anchor
    case None => location
    case Some(a) => location + "#" + a
  }

  /** A path inside the docset, placed under the docset's root location. */
  function ResolveRelative(root: string, relativePath: string): (u: string)
    ensures |u| == |root| + 1 + |relativePath|
    ensures u[..|root|] == root && u[|root|] == '/' && u[|root| + 1..] == relativePath
  {
    root + "/" + relativePath
  }

  /** initWithLanguage:symbolType:symbolName:URL:anchor:docSet: */
  function SymbolWithURL(language: Language, symbolType: SymbolType, symbolName: string,
                         fileURL: string, anchor: Option<string>, docSet: DocSetId): (s: Symbol)
    ensures s.language == language && s.symbolType == symbolType
    ensures s.symbolName == symbolName && s.docSet == docSet
    ensures |fileURL| <= |s.url| && s.url[..|fileURL|] == fileURL
    ensures anchor.None? ==> s.url == fileURL
    ensures anchor.Some? ==> |s.url| == |fileURL| + 1 + |anchor.value|
                             && s.url[|fileURL|] == '#' && s.url[|fileURL| + 1..] == anchor.value
  {
    Symbol(language, symbolType, symbolName, WithAnchor(fileURL, anchor), docSet)
  }

  /** initWithLanguage:symbolType:symbolName:relativePathToDocSet:anchor:docSet: */
  function SymbolWithRelativePath(language: Language, symbolType: SymbolType, symbolName: string,
                                  docSetRoot: string, relativePath: string, anchor: Option<string>,
                                  docSet: DocSetId): (s: Symbol)
    ensures s.language == language && s.symbolType == symbolType
    ensures s.symbolName == symbolName && s.docSet == docSet
    ensures |docSetRoot| + 1 + |relativePath| <= |s.url| && s.url[..|docSetRoot|] == docSetRoot
    ensures s.url[|docSetRoot|] == '/'
            && s.url[|docSetRoot| + 1..|docSetRoot| + 1 + |relativePath|] == relativePath
    ensures anchor.None? ==> |s.url| == |docSetRoot| + 1 + |relativePath|
    ensures anchor.Some? ==> |s.url| == |docSetRoot| + 2 + |relativePath| + |anchor.value|
                             && s.url[|docSetRoot| + 1 + |relativePath|] == '#'
                             && s.url[|docSetRoot| + 2 + |relativePath|..] == anchor.value
  {
    SymbolWithURL(language, symbolType, symbolName, ResolveRelative(docSetRoot, relativePath), anchor, docSet)
  }

  /** initWithLanguageString:symbolTypeString:symbolName:URL:anchor:docSet: */
  function SymbolWithStrings(table: NameTable, language: string, symbolType: string, symbolName: string,
                             fileURL: string, anchor: Option<string>, docSet: DocSetId): (s: Symbol)
    ensures s.language == LanguageFromString(table, language)
    ensures s.symbolType == SymbolTypeFromString(table, symbolType)
    ensures s.symbolName == symbolName && s.docSet == docSet
    ensures |fileURL| <= |s.url| && s.url[..|fileURL|] == fileURL
    ensures anchor.None? ==> s.url == fileURL
    ensures anchor.Some? ==> |s.url| == |fileURL| + 1 + |anchor.value|
                             && s.url[|fileURL|] == '#' && s.url[|fileURL| + 1..] == anchor.value
  {
    SymbolWithURL(LanguageFromString(table, language), SymbolTypeFromString(table, symbolType),
                  symbolName, fileURL, anchor, docSet)
  }

  // ---------------------------------------------------------------------------
  // Property-list representation
  // ---------------------------------------------------------------------------

  datatype PlistValue = Number(n: int) | Text(s: string)

  /** A flat field dictionary, as written to the catalog cache. */
  type Plist = map<string, PlistValue>

  const LanguageKey: string := "language"
  const SymbolTypeKey: string := "symbolType"
  const SymbolNameKey: string := "symbolName"
  const URLKey: string := "URL"

  /** propertyListRepresentation: the two codes as numbers, name and URL as text. */
  function PropertyList(s: Symbol): (p: Plist)
    ensures p.Keys == {LanguageKey, SymbolTypeKey, SymbolNameKey, URLKey}
    ensures p[SymbolNameKey] == Text(s.symbolName) && p[URLKey] == Text(s.url)
  {
    map[LanguageKey := Number(LanguageCode(s.language) as int),
        SymbolTypeKey := Number(SymbolTypeCode(s.symbolType) as int),
        SymbolNameKey := Text(s.symbolName),
        URLKey := Text(s.url)]
  }

  function DecodeLanguage(v: PlistValue): (l: Option<Language>)
    ensures l.Some? ==> v == Number(LanguageCode(l.value) as int)
  {
    if v.Number? && 0 <= v.n < 256 then LanguageFromCode(v.n as uint8) else None
  }

  function DecodeSymbolType(v: PlistValue): (t: Option<SymbolType>)
    ensures t.Some? ==> v == Number(SymbolTypeCode(t.value) as int)
  {
    if v.Number? && 0 <= v.n < 256 then SymbolTypeFromCode(v.n as uint8) else None
  }

  /**
    initWithPropertyListRepresentation:docSet: -- a missing key, a value of
    the wrong kind or a code outside its enumeration makes the entry
    unreadable (None); the docset reference is the one supplied.
   */
  function SymbolFromPropertyList(p: Plist, docSet: DocSetId): (r: Option<Symbol>)
    ensures r.Some? ==> r.value.docSet == docSet
    ensures r.Some? <==> (LanguageKey in p && DecodeLanguage(p[LanguageKey]).Some?
                          && SymbolTypeKey in p && DecodeSymbolType(p[SymbolTypeKey]).Some?
                          && SymbolNameKey in p && p[SymbolNameKey].Text?
                          && URLKey in p && p[URLKey].Text?)
  {
    if LanguageKey !in p || SymbolTypeKey !in p || SymbolNameKey !in p || URLKey !in p then None
    else
      var language := DecodeLanguage(p[LanguageKey]);
      var symbolType := DecodeSymbolType(p[SymbolTypeKey]);
      var name := p[SymbolNameKey];
      var url := p[URLKey];
      if language.None? || symbolType.None? || !name.Text? || !url.Text? then None
      else Some(Symbol(language.value, symbolType.value, name.s, url.s, docSet))
  }

  /** Decoding a symbol's representation with a docset gives the symbol back, re-parented to that docset. */
  lemma PropertyListRoundTrip(s: Symbol, docSet: DocSetId)
    ensures SymbolFromPropertyList(PropertyList(s), docSet) == Some(s.(docSet := docSet))
  {
  }

  /** Whatever decodes is exactly what the decoded symbol would write back, on the four keys. */
  lemma PropertyListDecodeEncode(p: Plist, docSet: DocSetId)
    requires SymbolFromPropertyList(p, docSet).Some?
    ensures forall k :: k in PropertyList(SymbolFromPropertyList(p, docSet).value) ==>
              k in p && p[k] == PropertyList(SymbolFromPropertyList(p, docSet).value)[k]
  {
  }

  // ---------------------------------------------------------------------------
  // Matching
  // ---------------------------------------------------------------------------

  datatype SearchMethod = Prefix | Contains

  /** Case folding of one character (ASCII letters only). */
  function Fold(c: char): (f: char)
    ensures !('A' <= f <= 'Z')
  {
    if 'A' <= c <= 'Z' then (c as int + 32) as char else c
  }

  /** Upper-casing of one character (ASCII letters only). */
  function Upper(c: char): (u: char)
    ensures Fold(u) == Fold(c)
  {
    if 'a' <= c <= 'z' then (c as int - 32) as char else c
  }

  function FoldString(s: string): (r: string)
    ensures |r| == |s| && forall i :: 0 <= i < |s| ==> r[i] == Fold(s[i])
  {
    seq(|s|, i requires 0 <= i < |s| => Fold(s[i]))
  }

  function UpperString(s: string): (r: string)
    ensures |r| == |s| && forall i :: 0 <= i < |s| ==> r[i] == Upper(s[i])
  {
    seq(|s|, i requires 0 <= i < |s| => Upper(s[i]))
  }

  predicate IsPrefix(query: string, name: string)
  {
    |query| <= |name| && name[..|query|] == query
  }

  /** The query occurs in the name starting at position i. */
  predicate OccursAt(query: string, name: string, i: nat)
  {
    i + |query| <= |name| && name[i..i + |query|] == query
  }

  /** The query occurs in the name at some position (the specification of substring search). */
  ghost predicate OccursIn(query: string, name: string)
  {
    exists i: nat :: OccursAt(query, name, i)
  }

  /** Substring search by scanning the name from the left. */
  predicate HasSubstring(name: string, query: string)
    decreases |name|
  {
    IsPrefix(query, name) || (name != [] && HasSubstring(name[1..], query))
  }

  lemma {:induction false} HasSubstringCorrect(name: string, query: string)
    ensures HasSubstring(name, query) <==> OccursIn(query, name)
    decreases |name|
  {
    assert OccursAt(query, name, 0) == IsPrefix(query, name);
    if IsPrefix(query, name) {
    } else if name == [] {
      assert forall i: nat :: OccursAt(query, name, i) ==> i == 0;
    } else {
      HasSubstringCorrect(name[1..], query);
      if HasSubstring(name[1..], query) {
        var i: nat :| OccursAt(query, name[1..], i);
        assert name[i + 1..i + 1 + |query|] == query;
        assert OccursAt(query, name, i + 1);
      }
      if OccursIn(query, name) {
        var i: nat :| OccursAt(query, name, i);
        assert name[1..][i - 1..i - 1 + |query|] == query;
        assert OccursAt(query, name[1..], i - 1);
      }
    }
  }

  /** matches:method: -- the comparison ignores letter case. */
  predicate Matches(s: Symbol, query: string, searchMethod: SearchMethod)
    ensures query == "" ==> Matches(s, query, searchMethod)
    ensures Matches(s, query, searchMethod) ==> |query| <= |s.symbolName|
  {
    HasSubstringCorrect(FoldString(s.symbolName), FoldString(query));
    match searchMethod
    case Prefix => IsPrefix(FoldString(query), FoldString(s.symbolName))
    case Contains => HasSubstring(FoldString(s.symbolName), FoldString(query))
  }

  /** A prefix match is the query at the start; a contains match is the query anywhere. */
  lemma MatchesMeaning(s: Symbol, query: string)
    ensures Matches(s, query, Prefix) <==>
              (|query| <= |s.symbolName| && FoldString(s.symbolName)[..|query|] == FoldString(query))
    ensures Matches(s, query, Contains) <==> OccursIn(FoldString(query), FoldString(s.symbolName))
  {
    HasSubstringCorrect(FoldString(s.symbolName), FoldString(query));
  }

  lemma PrefixMatchImpliesContainsMatch(s: Symbol, query: string)
    requires Matches(s, query, Prefix)
    ensures Matches(s, query, Contains)
  {
  }

  lemma FoldUpperString(s: string)
    ensures FoldString(UpperString(s)) == FoldString(s)
  {
  }

  /** Upper-casing both the name and the query does not change whether they match. */
  lemma MatchesIgnoresCase(s: Symbol, query: string, searchMethod: SearchMethod)
    ensures Matches(s, query, searchMethod)
        == Matches(s.(symbolName := UpperString(s.symbolName)), UpperString(query), searchMethod)
  {
    FoldUpperString(s.symbolName);
    FoldUpperString(query);
  }

  // ---------------------------------------------------------------------------
  // Ordering
  // ---------------------------------------------------------------------------

  /** NSComparisonResult. */
  datatype ComparisonResult = Ascending | Same | Descending

  function Flip(r: ComparisonResult): (f: ComparisonResult)
    ensures (f == Same) == (r == Same)
    ensures r != Same ==> f != r
  {
    match r
    case Ascending => Descending
    case Same => Same
    case Descending => Ascending
  }

  function CompareInts(a: int, b: int): (r: ComparisonResult)
  {
    if a < b then Ascending else if a == b then Same else Descending
  }

  /** Lexicographic comparison by character code; a proper prefix sorts first. */
  function CompareStrings(a: string, b: string): (r: ComparisonResult)
    decreases |a|
  {
    if a == [] && b == [] then Same
    else if a == [] then Ascending
    else if b == [] then Descending
    else if a[0] < b[0] then Ascending
    else if a[0] > b[0] then Descending
    else CompareStrings(a[1..], b[1..])
  }

  lemma {:induction false} CompareStringsSame(a: string, b: string)
    ensures CompareStrings(a, b) == Same <==> a == b
    decreases |a|
  {
    if a != [] && b != [] && a[0] == b[0] {
      CompareStringsSame(a[1..], b[1..]);
      assert a == [a[0]] + a[1..] && b == [b[0]] + b[1..];
    }
  }

  lemma {:induction false} CompareStringsFlip(a: string, b: string)
    ensures CompareStrings(b, a) == Flip(CompareStrings(a, b))
    decreases |a|
  {
    if a != [] && b != [] && a[0] == b[0] {
      CompareStringsFlip(a[1..], b[1..]);
    }
  }

  lemma {:induction false} CompareStringsTransitive(a: string, b: string, c: string)
    requires CompareStrings(a, b) != Descending && CompareStrings(b, c) != Descending
    ensures CompareStrings(a, c) != Descending
    decreases |a|
  {
    if a != [] && b != [] && c != [] && a[0] == b[0] == c[0] {
      CompareStringsTransitive(a[1..], b[1..], c[1..]);
    }
  }

  /**
    compare: -- by case-folded symbol name, then by symbol type code, then by
    language code.
   */
  function Compare(x: Symbol, y: Symbol): (r: ComparisonResult)
    ensures FoldString(x.symbolName) != FoldString(y.symbolName) ==>
              r == CompareStrings(FoldString(x.symbolName), FoldString(y.symbolName)) && r != Same
  {
    CompareStringsSame(FoldString(x.symbolName), FoldString(y.symbolName));
    var byName := CompareStrings(FoldString(x.symbolName), FoldString(y.symbolName));
    if byName != Same then byName
    else
      var byType := CompareInts(SymbolTypeCode(x.symbolType) as int, SymbolTypeCode(y.symbolType) as int);
      if byType != Same then byType
      else CompareInts(LanguageCode(x.language) as int, LanguageCode(y.language) as int)
  }

  /** x sorts no later than y. */
  predicate LessEq(x: Symbol, y: Symbol)
  {
    Compare(x, y) != Descending
  }

  /** Two symbols compare the same exactly when their folded names, types and languages agree. */
  lemma CompareSame(x: Symbol, y: Symbol)
    ensures Compare(x, y) == Same <==>
              FoldString(x.symbolName) == FoldString(y.symbolName)
              && x.symbolType == y.symbolType && x.language == y.language
  {
    CompareStringsSame(FoldString(x.symbolName), FoldString(y.symbolName));
    if SymbolTypeCode(x.symbolType) == SymbolTypeCode(y.symbolType) {
      SymbolTypeCodeInjective(x.symbolType, y.symbolType);
    }
    if LanguageCode(x.language) == LanguageCode(y.language) {
      LanguageCodeInjective(x.language, y.language);
    }
  }

  lemma CompareReflexive(x: Symbol)
    ensures Compare(x, x) == Same
  {
    CompareSame(x, x);
  }

  /** Ascending one way is descending the other way, and Same is symmetric. */
  lemma CompareAntisymmetric(x: Symbol, y: Symbol)
    ensures Compare(y, x) == Flip(Compare(x, y))
  {
    CompareStringsFlip(FoldString(x.symbolName), FoldString(y.symbolName));
  }

  lemma CompareTotal(x: Symbol, y: Symbol)
    ensures LessEq(x, y) || LessEq(y, x)
  {
    CompareAntisymmetric(x, y);
  }

  lemma CompareTransitive(x: Symbol, y: Symbol, z: Symbol)
    requires LessEq(x, y) && LessEq(y, z)
    ensures LessEq(x, z)
  {
    var fx, fy, fz := FoldString(x.symbolName), FoldString(y.symbolName), FoldString(z.symbolName);
    CompareStringsTransitive(fx, fy, fz);
    CompareStringsSame(fx, fy);
    CompareStringsSame(fy, fz);
    CompareStringsSame(fx, fz);
    if CompareStrings(fx, fz) == Same {
      // fx == fz, so x before y by name would put z after y by name
      CompareStringsFlip(fy, fz);
    }
  }
}
