/**
  One documentation archive (STADocSet and its internal category): editable
  metadata, and the symbol collection that indexing or the catalog cache
  installs wholesale and that search walks.
 */
module DocSets {
  import opened Wrappers
  import opened Symbols

  /** STAPlatform; the C enumeration numbers its members from 0. */
  datatype Platform = MacOS | IOS | Unknown

  function PlatformCode(p: Platform): (c: nat)
    ensures c <= 2
  {
    match p
    case MacOS => 0
    case IOS => 1
    case Unknown => 2
  }

  function PlatformFromCode(c: nat): (p: Option<Platform>)
    ensures p.Some? <==> c <= 2
    ensures p.Some? ==> PlatformCode(p.value) == c
  {
    if c == 0 then Some(MacOS) else if c == 1 then Some(IOS) else if c == 2 then Some(Platform.Unknown) else None
  }

  lemma PlatformCodeRoundTrip(p: Platform)
    ensures PlatformFromCode(PlatformCode(p)) == Some(p)
  {
  }

  // ---------------------------------------------------------------------------
  // Specification functions on symbol collections
  // ---------------------------------------------------------------------------

  /** The stored symbols that match, in stored order: what a search reports. */
  function Filter(symbols: seq<Symbol>, query: string, searchMethod: SearchMethod): (r: seq<Symbol>)
    ensures |r| <= |symbols|
    ensures forall i :: 0 <= i < |r| ==> r[i] in symbols && Matches(r[i], query, searchMethod)
  {
    if symbols == [] then []
    else
      var last := symbols[|symbols| - 1];
      Filter(symbols[..|symbols| - 1], query, searchMethod)
        + (if Matches(last, query, searchMethod) then [last] else [])
  }

  /** A symbol is reported exactly when it is stored and matches. */
  lemma {:induction false} FilterMembers(symbols: seq<Symbol>, query: string, searchMethod: SearchMethod, x: Symbol)
    ensures x in Filter(symbols, query, searchMethod) <==> x in symbols && Matches(x, query, searchMethod)
  {
    if symbols != [] {
      var init := symbols[..|symbols| - 1];
      FilterMembers(init, query, searchMethod, x);
      assert symbols == init + [symbols[|symbols| - 1]];
    }
  }

  /** Each matching symbol is reported as many times as it is stored, and no other symbol at all. */
  lemma {:induction false} FilterCounts(symbols: seq<Symbol>, query: string, searchMethod: SearchMethod, x: Symbol)
    ensures multiset(Filter(symbols, query, searchMethod))[x]
         == if Matches(x, query, searchMethod) then multiset(symbols)[x] else 0
  {
    if symbols != [] {
      var init := symbols[..|symbols| - 1];
      FilterCounts(init, query, searchMethod, x);
      assert symbols == init + [symbols[|symbols| - 1]];
    }
  }

  /** Every symbol of the collection names the docset `id` as its owner. */
  predicate Owned(symbols: seq<Symbol>, id: DocSetId)
  {
    forall s :: s in symbols ==> s.docSet == id
  }

  /** The catalog entries of a symbol collection, in order. */
  function PropertyLists(symbols: seq<Symbol>): (ps: seq<Plist>)
    ensures |ps| == |symbols|
    ensures forall i :: 0 <= i < |symbols| ==> ps[i] == PropertyList(symbols[i])
  {
    seq(|symbols|, i requires 0 <= i < |symbols| => PropertyList(symbols[i]))
  }

  /** Decodes every entry for docset `id`; one unreadable entry makes the whole collection unreadable. */
  function DecodeAll(ps: seq<Plist>, id: DocSetId): (r: Option<seq<Symbol>>)
    ensures r.Some? ==> |r.value| == |ps| && Owned(r.value, id)
  {
    if ps == [] then Some([])
    else
      match DecodeAll(ps[..|ps| - 1], id)
      case None => None
      case Some(init) =>
        match SymbolFromPropertyList(ps[|ps| - 1], id)
        case None => None
        case Some(s) => Some(init + [s])
  }

  /** A decoded collection has one symbol per entry, each decoded from its entry and owned by `id`. */
  lemma {:induction false} DecodeAllMeaning(ps: seq<Plist>, id: DocSetId)
    ensures DecodeAll(ps, id).Some? <==> forall i :: 0 <= i < |ps| ==> SymbolFromPropertyList(ps[i], id).Some?
    ensures DecodeAll(ps, id).Some? ==>
              |DecodeAll(ps, id).value| == |ps|
              && Owned(DecodeAll(ps, id).value, id)
              && forall i :: 0 <= i < |ps| ==> DecodeAll(ps, id).value[i] == SymbolFromPropertyList(ps[i], id).value
  {
    if ps != [] {
      var init := ps[..|ps| - 1];
      DecodeAllMeaning(init, id);
      assert forall i :: 0 <= i < |init| ==> init[i] == ps[i];
    }
  }

  /** Restoring a collection from its own catalog entries gives it back unchanged. */
  lemma {:induction false} DecodeAllRoundTrip(symbols: seq<Symbol>, id: DocSetId)
    requires Owned(symbols, id)
    ensures DecodeAll(PropertyLists(symbols), id) == Some(symbols)
  {
    var ps := PropertyLists(symbols);
    forall i | 0 <= i < |ps|
      ensures SymbolFromPropertyList(ps[i], id) == Some(symbols[i])
    {
      PropertyListRoundTrip(symbols[i], id);
      assert symbols[i].(docSet := id) == symbols[i];
    }
    DecodeAllMeaning(ps, id);
    var restored := DecodeAll(ps, id).value;
    assert forall i :: 0 <= i < |symbols| ==> restored[i] == symbols[i];
    assert restored == symbols;
  }

  /** Once a prefix of the entries fails to decode, the whole collection does. */
  lemma {:induction false} DecodeAllPrefixFails(ps: seq<Plist>, k: nat, id: DocSetId)
    requires k <= |ps| && DecodeAll(ps[..k], id).None?
    ensures DecodeAll(ps, id).None?
    decreases |ps| - k
  {
    if k < |ps| {
      assert ps[..k + 1][..k] == ps[..k];
      DecodeAllPrefixFails(ps, k + 1, id);
    } else {
      assert ps[..k] == ps;
    }
  }

  // ---------------------------------------------------------------------------
  // The docset object
  // ---------------------------------------------------------------------------

  class DocSet {
    /** The key that symbols use to refer back to this docset. */
    const id: DocSetId
    var name: string
    var version: string
    var platform: Platform
    var symbols: seq<Symbol>

    /** Every stored symbol belongs to this docset. */
    ghost predicate Valid()
      reads this
    {
      Owned(symbols, id)
    }

    /** A docset with the given metadata and no symbols yet (not yet indexed). */
    constructor (id: DocSetId, name: string, version: string, platform: Platform)
      ensures Valid()
      ensures this.id == id && this.name == name && this.version == version && this.platform == platform
      ensures symbols == []
    {
      this.id := id;
      this.name := name;
      this.version := version;
      this.platform := platform;
      symbols := [];
    }

    method SetName(name: string)
      modifies this`name
      ensures this.name == name
    {
      this.name := name;
    }

    method SetVersion(version: string)
      modifies this`version
      ensures this.version == version
    {
      this.version := version;
    }

    method SetPlatform(platform: Platform)
      modifies this`platform
      ensures this.platform == platform
    {
      this.platform := platform;
    }

    /** setSymbols: replaces the whole collection. */
    method SetSymbols(symbols: seq<Symbol>)
      requires Owned(symbols, id)
      modifies this`symbols
      ensures Valid()
      ensures this.symbols == symbols
    {
      this.symbols := symbols;
    }

    /**
      loadSymbolsFromPropertyListRepresentation: decodes every catalog entry
      for this docset and installs the result; if some entry is unreadable the
      stored collection is left as it was and `ok` is false.
     */
    method LoadSymbolsFromPropertyList(plist: seq<Plist>) returns (ok: bool)
      requires Valid()
      modifies this`symbols
      ensures Valid()
      ensures ok <==> DecodeAll(plist, id).Some?
      ensures ok ==> symbols == DecodeAll(plist, id).value
      ensures !ok ==> symbols == old(symbols)
    {
      var decoded: seq<Symbol> := [];
      var i := 0;
      while i < |plist|
        invariant 0 <= i <= |plist|
        invariant DecodeAll(plist[..i], id) == Some(decoded)
      {
        assert plist[..i + 1][..i] == plist[..i];
        var s := SymbolFromPropertyList(plist[i], id);
        if s.None? {
          DecodeAllPrefixFails(plist, i + 1, id);
          return false;
        }
        decoded := decoded + [s.value];
        i := i + 1;
      }
      assert plist[..i] == plist;
      DecodeAllMeaning(plist, id);
      symbols := decoded;
      ok := true;
    }

    /**
      search:method:onResult: -- walks the stored symbols in order and reports
      each one that matches; `results` is the sequence of reports.
     */
    method SearchBy(query: string, searchMethod: SearchMethod) returns (results: seq<Symbol>)
      ensures results == Filter(symbols, query, searchMethod)
    {
      results := [];
      var i := 0;
      while i < |symbols|
        invariant 0 <= i <= |symbols|
        invariant results == Filter(symbols[..i], query, searchMethod)
      {
        assert symbols[..i + 1][..i] == symbols[..i];
        if Matches(symbols[i], query, searchMethod) {
          results := results + [symbols[i]];
        }
        i := i + 1;
      }
      assert symbols[..i] == symbols;
    }

    /** search:onResult: -- a prefix search; every report is one of this docset's own symbols. */
    method Search(query: string) returns (results: seq<Symbol>)
      requires Valid()
      ensures results == Filter(symbols, query, Prefix)
      ensures forall r :: r in results ==> r in symbols && r.docSet == id
    {
      results := SearchBy(query, Prefix);
      forall r | r in results
        ensures r in symbols
      {
        FilterMembers(symbols, query, Prefix, r);
      }
    }
  }

  /** Restoring the catalog entries of an owned collection reinstalls that same collection. */
  method LoadRestoresSymbols(d: DocSet, symbols: seq<Symbol>)
    requires d.Valid() && Owned(symbols, d.id)
    modifies d`symbols
    ensures d.symbols == symbols
  {
    DecodeAllRoundTrip(symbols, d.id);
    var ok := d.LoadSymbolsFromPropertyList(PropertyLists(symbols));
  }
}
